/**
  The resource-content normalizer (backend/internal/resources/content.go): trims, fills
  in missing ids, drops what does not belong to the type, and refuses the rest.
  Generated ids are read from a supply of non-empty strings.
*/
module ResourceContent {
  import opened Options
  import Text

  datatype Choice = Choice(id: string, text: string)

  datatype Question = Question(id: string, prompt: string, kind: string, choices: seq<Choice>, correct: seq<string>, points: int)

  datatype ResourceType = Material | Article | Quiz | Listening | Reading | Writing | Other(name: string)

  datatype ContentOf<Q> = Content(
    fileAsset: Option<nat>, url: string, description: string,
    body: string,
    passage: string, audioAsset: Option<nat>, questions: seq<Q>,
    prompt: string, minWords: int, rubric: string)

  type Content = ContentOf<Question>

  /** A question as the caller holds it: its choices are a slice the normalizer writes to. */
  datatype Draft = Draft(id: string, prompt: string, kind: string, choices: array<Choice>, correct: seq<string>, points: int)

  function Value(d: Draft): Question
    reads d.choices
  {
    Question(d.id, d.prompt, d.kind, d.choices[..], d.correct, d.points)
  }

  function Slices(ds: seq<Draft>): set<array<Choice>> {
    set d | d in ds :: d.choices
  }

  function Values(ds: seq<Draft>): (qs: seq<Question>)
    reads Slices(ds)
    ensures |qs| == |ds| && forall i :: 0 <= i < |ds| ==> qs[i] == Value(ds[i])
  {
    if ds == [] then []
    else
      assert forall d :: d in ds[..|ds| - 1] ==> d in ds;
      Values(ds[..|ds| - 1]) + [Value(ds[|ds| - 1])]
  }

  function WithQuestions<P, Q>(c: ContentOf<P>, qs: seq<Q>): ContentOf<Q> {
    Content(c.fileAsset, c.url, c.description, c.body, c.passage, c.audioAsset, qs, c.prompt, c.minWords, c.rubric)
  }

  datatype QuestionError =
    | NoQuestionPrompt | TooFewChoices | EmptyChoice | NothingMarked | NotSingle(marked: nat) | StrayMark | NoAnswer | UnknownKind

  datatype ContentError =
    | NeedsFileOrLink | BadLink | NoBody | NoPrompt | NegativeWords | NoAudio | NoPassage | NoQuestions | UnknownType
    | BadQuestion(number: nat, why: QuestionError)

  const EMPTY: Content := Content(None, "", "", "", "", None, [], "", 0, "")

  type Supply = nat -> string

  ghost predicate GoodSupply(supply: Supply) {
    forall k :: supply(k) != ""
  }

  predicate IsHttpUrl(s: string) {
    "http://" <= s || "https://" <= s
  }

  // --- dedupe ----------------------------------------------------------------------------

  predicate Distinct(s: seq<string>) {
    forall i, j :: 0 <= i < j < |s| ==> s[i] != s[j]
  }

  /** Non-empty entries, first occurrences only, in order. */
  function Dedupe(s: seq<string>): (out: seq<string>)
    ensures Distinct(out) && "" !in out
    ensures forall x :: x in out <==> x in s && x != ""
    ensures Distinct(s) && "" !in s ==> out == s
  {
    if s == [] then []
    else
      var last := s[|s| - 1];
      var init := Dedupe(s[..|s| - 1]);
      assert forall x :: x in s <==> x in s[..|s| - 1] || x == last by {
        assert s == s[..|s| - 1] + [last];
      }
      if last != "" && last !in init then
        assert Distinct(s) && "" !in s ==> s == s[..|s| - 1] + [last];
        init + [last]
      else init
  }

  method DedupeLoop(s: seq<string>) returns (out: seq<string>)
    ensures out == Dedupe(s)
  {
    var seen: set<string> := {};
    out := [];
    assert s[..0] == [];
    for i := 0 to |s|
      invariant out == Dedupe(s[..i])
      invariant forall x :: x in seen <==> x in out
    {
      assert s[..i + 1][..i] == s[..i];
      if s[i] != "" && s[i] !in seen {
        seen := seen + {s[i]};
        out := out + [s[i]];
      }
    }
    assert s[..|s|] == s;
  }

  // --- choices ------------------------------------------------------------------------------

  function CleanChoice(c: Choice, supply: Supply, used: nat): Option<(Choice, nat)> {
    var text := Text.TrimSpace(c.text);
    if text == "" then None
    else if c.id == "" then Some((Choice(supply(used), text), used + 1))
    else Some((Choice(c.id, text), used))
  }

  /** Trimmed and numbered choices with the ids used so far, or nothing if one is empty. */
  function CleanChoices(cs: seq<Choice>, supply: Supply, used: nat): Option<(seq<Choice>, nat)> {
    if cs == [] then Some(([], used))
    else
      match CleanChoices(cs[..|cs| - 1], supply, used)
      case None => None
      case Some(done) =>
        match CleanChoice(cs[|cs| - 1], supply, done.1)
        case None => None
        case Some(last) => Some((done.0 + [last.0], last.1))
  }

  lemma {:induction false} EmptyChoiceSpoilsAll(cs: seq<Choice>, i: nat, supply: Supply, used: nat)
    requires i <= |cs| && CleanChoices(cs[..i], supply, used) == None
    ensures CleanChoices(cs, supply, used) == None
    decreases |cs| - i
  {
    if i < |cs| {
      assert cs[..i + 1][..i] == cs[..i];
      EmptyChoiceSpoilsAll(cs, i + 1, supply, used);
    } else {
      assert cs[..i] == cs;
    }
  }

  function Ids(cs: seq<Choice>): set<string> {
    set c | c in cs :: c.id
  }

  lemma IdsAppend(cs: seq<Choice>, c: Choice)
    ensures Ids(cs + [c]) == Ids(cs) + {c.id}
  {
  }

  /** What an abandoned loop leaves in the slice: cleaned up to the first blank choice, that one emptied, the rest as it was. */
  ghost predicate StoppedAt(before: seq<Choice>, after: seq<Choice>, i: nat, supply: Supply, used: nat) {
    && i < |before| && Text.TrimSpace(before[i].text) == ""
    && CleanChoices(before[..i], supply, used).Some?
    && after == CleanChoices(before[..i], supply, used).value.0 + [before[i].(text := "")] + before[i + 1..]
  }

  /** What the loop leaves in the caller's slice, whether or not it got through. */
  ghost predicate WrittenThrough(before: seq<Choice>, after: seq<Choice>, supply: Supply, used: nat) {
    match CleanChoices(before, supply, used)
    case Some(done) => after == done.0
    case None => exists i :: StoppedAt(before, after, i, supply, used)
  }

  /** The loop over a question's choices, in place; `seen` collects their ids. */
  method CleanChoicesLoop(cs: array<Choice>, supply: Supply, used: nat) returns (ok: bool, seen: set<string>, used': nat)
    modifies cs
    ensures ok <==> CleanChoices(old(cs[..]), supply, used).Some?
    ensures ok ==> (cs[..], used') == CleanChoices(old(cs[..]), supply, used).value && seen == Ids(cs[..])
    ensures WrittenThrough(old(cs[..]), cs[..], supply, used)
  {
    hide Text.TrimSpace, Ids, StoppedAt, CleanChoices;
    NoChoices(supply, used);
    ghost var was := cs[..];
    ok, seen, used' := true, {}, used;
    assert was[..0] == [] && cs[..0] == [];
    NoIds();
    for i := 0 to cs.Length
      invariant cs[i..] == was[i..]
      invariant CleanChoices(was[..i], supply, used) == Some((cs[..i], used'))
      invariant seen == Ids(cs[..i])
    {
      assert was[..i + 1][..i] == was[..i];
      ghost var before, u := cs[..i], used';
      assert cs[i] == was[i] by { assert cs[i..][0] == was[i..][0]; }
      cs[i] := cs[i].(text := Text.TrimSpace(cs[i].text));
      if cs[i].text == "" {
        BlankChoice(was, i, supply, used);
        EmptyChoiceSpoilsAll(was, i + 1, supply, used);
        LoopStopped(was, cs[..], before, i, supply, used);
        ok := false;
        return;
      }
      if cs[i].id == "" {
        cs[i] := cs[i].(id := supply(used'));
        used' := used' + 1;
      }
      assert CleanChoice(was[i], supply, u) == Some((cs[i], used'));
      OneMoreChoice(was, i, before, cs[i], supply, used, u, used');
      seen := seen + {cs[i].id};
      IdsAppend(before, cs[i]);
      assert cs[..i + 1] == before + [cs[i]];
    }
    assert was[..cs.Length] == was && cs[..cs.Length] == cs[..];
  }

  lemma NoChoices(supply: Supply, used: nat)
    ensures CleanChoices([], supply, used) == Some(([], used))
  {
  }

  lemma OneMoreChoice(cs: seq<Choice>, i: nat, done: seq<Choice>, last: Choice, supply: Supply, used: nat, u: nat, used': nat)
    requires i < |cs| && CleanChoices(cs[..i], supply, used) == Some((done, u))
    requires CleanChoice(cs[i], supply, u) == Some((last, used'))
    ensures CleanChoices(cs[..i + 1], supply, used) == Some((done + [last], used'))
  {
    assert cs[..i + 1][..i] == cs[..i];
  }

  lemma BlankChoice(cs: seq<Choice>, i: nat, supply: Supply, used: nat)
    requires i < |cs| && CleanChoices(cs[..i], supply, used).Some? && Text.TrimSpace(cs[i].text) == ""
    ensures CleanChoices(cs[..i + 1], supply, used) == None
  {
    hide Text.TrimSpace;
    assert cs[..i + 1][..i] == cs[..i];
  }

  lemma LoopStopped(before: seq<Choice>, after: seq<Choice>, done: seq<Choice>, i: nat, supply: Supply, used: nat)
    requires |after| == |before| && i < |before| && |done| == i
    requires CleanChoices(before[..i], supply, used).Some? && CleanChoices(before[..i], supply, used).value.0 == done
    requires after[..i] == done && after[i] == before[i].(text := "") && after[i + 1..] == before[i + 1..]
    requires Text.TrimSpace(before[i].text) == ""
    ensures StoppedAt(before, after, i, supply, used)
  {
    hide CleanChoices, Text.TrimSpace;
    SplitAround(after, i);
  }

  lemma SplitAround(cs: seq<Choice>, i: nat)
    requires i < |cs|
    ensures cs == cs[..i] + [cs[i]] + cs[i + 1..]
  {
  }

  lemma NoIds()
    ensures Ids([]) == {}
  {
  }

  // --- accepted answers ---------------------------------------------------------------------

  /** The non-blank answers, trimmed. */
  function Answers(s: seq<string>): (out: seq<string>)
    ensures forall a :: a in out ==> a != "" && Text.Trimmed(a)
  {
    if s == [] then []
    else
      var a := Text.TrimSpace(s[|s| - 1]);
      Answers(s[..|s| - 1]) + if a != "" then [a] else []
  }

  method AnswersLoop(s: seq<string>) returns (out: seq<string>)
    ensures out == Answers(s)
  {
    out := [];
    for i := 0 to |s|
      invariant out == Answers(s[..i])
    {
      assert s[..i + 1][..i] == s[..i];
      var a := Text.TrimSpace(s[i]);
      if a != "" {
        out := out + [a];
      }
    }
    assert s[..|s|] == s;
  }

  // --- one question ---------------------------------------------------------------------------

  function CleanMarks(q: Question, marks: seq<string>): Result<Question, QuestionError> {
    if marks == [] then Err(NothingMarked)
    else if q.kind == "single" && |marks| != 1 then Err(NotSingle(|marks|))
    else if exists m :: m in marks && m !in Ids(q.choices) then Err(StrayMark)
    else Ok(q.(correct := marks))
  }

  /** `normalizeQuestion`. */
  function CleanQuestion(q: Question, supply: Supply, used: nat): Result<(Question, nat), QuestionError> {
    var prompt := Text.TrimSpace(q.prompt);
    if prompt == "" then Err(NoQuestionPrompt)
    else
      var id := if q.id == "" then supply(used) else q.id;
      var u := if q.id == "" then used + 1 else used;
      var named := q.(prompt := prompt, id := id, points := if q.points <= 0 then 1 else q.points);
      if q.kind == "single" || q.kind == "multi" then
        if |q.choices| < 2 then Err(TooFewChoices)
        else
          match CleanChoices(q.choices, supply, u)
          case None => Err(EmptyChoice)
          case Some(done) =>
            match CleanMarks(named.(choices := done.0), Dedupe(q.correct)) {
              case Err(e) => Err(e)
              case Ok(cleaned) => Ok((cleaned, done.1))
            }
      else if q.kind == "text" then
        if Answers(q.correct) == [] then Err(NoAnswer)
        else Ok((named.(choices := [], correct := Answers(q.correct)), u))
      else Err(UnknownKind)
  }

  predicate HasChoices(kind: string) {
    kind == "single" || kind == "multi"
  }

  /** What normalizing a question leaves in the caller's slice: only a choice question with a prompt and two choices is written to. */
  ghost predicate SliceAfter(q: Question, after: seq<Choice>, supply: Supply, used: nat) {
    if HasChoices(q.kind) && Text.TrimSpace(q.prompt) != "" && |q.choices| >= 2
    then WrittenThrough(q.choices, after, supply, if q.id == "" then used + 1 else used)
    else after == q.choices
  }

  method NormalizeQuestion(d: Draft, supply: Supply, used: nat) returns (r: Result<(Question, nat), QuestionError>)
    modifies d.choices
    ensures r == CleanQuestion(old(Value(d)), supply, used)
    ensures SliceAfter(old(Value(d)), d.choices[..], supply, used)
    ensures r.Ok? && HasChoices(d.kind) ==> r.value.0.choices == d.choices[..]
  {
    hide Text.TrimSpace, Dedupe, CleanChoices, Answers, Ids, WrittenThrough;
    var used' := used;
    var q := Question(d.id, Text.TrimSpace(d.prompt), d.kind, [], d.correct, d.points);
    if q.prompt == "" {
      return Err(NoQuestionPrompt);
    }
    if q.id == "" {
      q := q.(id := supply(used'));
      used' := used' + 1;
    }
    if q.points <= 0 {
      q := q.(points := 1);
    }
    if q.kind == "single" || q.kind == "multi" {
      if d.choices.Length < 2 {
        return Err(TooFewChoices);
      }
      var ok, seen, u := CleanChoicesLoop(d.choices, supply, used');
      if !ok {
        return Err(EmptyChoice);
      }
      q := q.(choices := d.choices[..]);
      var correct := DedupeLoop(q.correct);
      if |correct| == 0 {
        return Err(NothingMarked);
      }
      if q.kind == "single" && |correct| != 1 {
        return Err(NotSingle(|correct|));
      }
      var stray := HasStray(correct, seen);
      if stray {
        return Err(StrayMark);
      }
      q := q.(correct := correct);
      return Ok((q, u));
    }
    if q.kind == "text" {
      var accepted := AnswersLoop(q.correct);
      if |accepted| == 0 {
        return Err(NoAnswer);
      }
      q := q.(correct := accepted);
      return Ok((q, used'));
    }
    return Err(UnknownKind);
  }

  /** The scan for a mark that names no choice. */
  method HasStray(correct: seq<string>, seen: set<string>) returns (stray: bool)
    ensures stray <==> exists m :: m in correct && m !in seen
  {
    for i := 0 to |correct|
      invariant forall j :: 0 <= j < i ==> correct[j] in seen
    {
      if correct[i] !in seen {
        return true;
      }
    }
    return false;
  }

  // --- the whole payload ------------------------------------------------------------------------

  function CleanQuestions(qs: seq<Question>, supply: Supply, used: nat): Result<(seq<Question>, nat), ContentError> {
    if qs == [] then Ok(([], used))
    else
      match CleanQuestions(qs[..|qs| - 1], supply, used)
      case Err(e) => Err(e)
      case Ok(done) =>
        match CleanQuestion(qs[|qs| - 1], supply, done.1)
        case Err(why) => Err(BadQuestion(|qs|, why))
        case Ok(last) => Ok((done.0 + [last.0], last.1))
  }

  lemma {:induction false} FirstBadQuestionDecides(qs: seq<Question>, i: nat, supply: Supply, used: nat)
    requires i <= |qs| && CleanQuestions(qs[..i], supply, used).Err?
    ensures CleanQuestions(qs, supply, used) == CleanQuestions(qs[..i], supply, used)
    decreases |qs| - i
  {
    if i < |qs| {
      assert qs[..i + 1][..i] == qs[..i];
      FirstBadQuestionDecides(qs, i + 1, supply, used);
    } else {
      assert qs[..i] == qs;
    }
  }

  /** Drafts decoded from one payload have slices of their own. */
  ghost predicate OwnSlices(ds: seq<Draft>) {
    forall i, j :: 0 <= i < j < |ds| ==> ds[i].choices != ds[j].choices
  }

  /** The cleaned questions' choices are what the caller's slices now hold. */
  predicate SharesSlices(held: seq<Question>, out: seq<Question>) {
    |out| <= |held| && forall i :: 0 <= i < |out| && HasChoices(held[i].kind) ==> out[i].choices == held[i].choices
  }

  lemma OneMoreShared(before: seq<Question>, after: seq<Question>, out: seq<Question>, q: Question)
    requires |out| < |before| == |after| && SharesSlices(before, out) && after == before[|out| := after[|out|]]
    requires HasChoices(after[|out|].kind) ==> q.choices == after[|out|].choices
    ensures SharesSlices(after, out + [q])
  {
  }

  /** One draft among several: no other draft's slice is written to. */
  method NormalizeAt(ds: seq<Draft>, i: nat, supply: Supply, used: nat) returns (r: Result<(Question, nat), QuestionError>)
    requires OwnSlices(ds) && i < |ds|
    modifies ds[i].choices
    ensures r == CleanQuestion(old(Values(ds))[i], supply, used)
    ensures Values(ds) == old(Values(ds))[i := Value(ds[i])]
    ensures r.Ok? && HasChoices(ds[i].kind) ==> r.value.0.choices == Values(ds)[i].choices
  {
    hide CleanQuestion, SliceAfter, HasChoices;
    ghost var held := Values(ds);
    r := NormalizeQuestion(ds[i], supply, used);
    forall j | 0 <= j < |ds| && j != i ensures Value(ds[j]) == held[j] {
      assert ds[j].choices != ds[i].choices;
    }
  }

  method NormalizeQuestions(ds: seq<Draft>, supply: Supply, used: nat) returns (r: Result<(seq<Question>, nat), ContentError>)
    requires OwnSlices(ds)
    modifies Slices(ds)
    ensures r == CleanQuestions(old(Values(ds)), supply, used)
    ensures r.Ok? ==> |r.value.0| == |ds| && SharesSlices(Values(ds), r.value.0)
  {
    hide CleanQuestions, CleanQuestion, HasChoices, SharesSlices, Values;
    NoQuestionsYet(supply, used);
    ghost var qs := Values(ds);
    var out: seq<Question>, used' := [], used;
    NothingShared(qs);
    for i := 0 to |ds|
      invariant Values(ds)[i..] == qs[i..]
      invariant CleanQuestions(qs[..i], supply, used) == Ok((out, used'))
      invariant |out| == i && SharesSlices(Values(ds), out)
    {
      assert qs[..i + 1][..i] == qs[..i];
      assert ds[i] in ds;
      ghost var held := Values(ds);
      assert held[i] == qs[i] by { assert held[i..][0] == qs[i..][0]; }
      var cleaned := NormalizeAt(ds, i, supply, used');
      OneMoreQuestion(qs, i, out, supply, used, used');
      if cleaned.Err? {
        FirstBadQuestionDecides(qs, i + 1, supply, used);
        return Err(BadQuestion(i + 1, cleaned.error));
      }
      RestUntouched(held, Values(ds), qs, i);
      OneMoreShared(held, Values(ds), out, cleaned.value.0);
      out, used' := out + [cleaned.value.0], cleaned.value.1;
    }
    assert qs[..|qs|] == qs;
    return Ok((out, used'));
  }

  lemma NoQuestionsYet(supply: Supply, used: nat)
    ensures CleanQuestions([], supply, used) == Ok(([], used))
  {
  }

  lemma OneMoreQuestion(qs: seq<Question>, i: nat, out: seq<Question>, supply: Supply, used: nat, u: nat)
    requires i < |qs| && CleanQuestions(qs[..i], supply, used) == Ok((out, u))
    ensures CleanQuestions(qs[..i + 1], supply, used)
         == match CleanQuestion(qs[i], supply, u)
            case Err(why) => Err(BadQuestion(i + 1, why))
            case Ok(last) => Ok((out + [last.0], last.1))
  {
    hide CleanQuestion;
    assert qs[..i + 1][..i] == qs[..i];
  }

  lemma RestUntouched(held: seq<Question>, after: seq<Question>, qs: seq<Question>, i: nat)
    requires i < |held| == |after| == |qs| && held[i..] == qs[i..] && after == held[i := after[i]]
    ensures after[i + 1..] == qs[i + 1..]
  {
    assert held[i + 1..] == held[i..][1..] && qs[i + 1..] == qs[i..][1..];
    assert after[i + 1..] == held[i + 1..];
  }

  lemma NothingShared(held: seq<Question>)
    ensures SharesSlices(held, [])
  {
  }

  /** `stripTo`. */
  function StripTo(t: ResourceType, c: Content): Content {
    match t
    case Material => EMPTY.(fileAsset := c.fileAsset, url := c.url, description := c.description)
    case Article => EMPTY.(body := c.body)
    case Writing => EMPTY.(prompt := c.prompt, minWords := c.minWords, rubric := c.rubric)
    case Quiz => EMPTY.(questions := c.questions)
    case Listening => EMPTY.(audioAsset := c.audioAsset, questions := c.questions)
    case Reading => EMPTY.(passage := c.passage, questions := c.questions)
    case Other(_) => EMPTY
  }

  function CleanQuizLike(t: ResourceType, c: Content, supply: Supply, used: nat): Result<(Content, nat), ContentError> {
    if c.questions == [] then Err(NoQuestions)
    else
      match CleanQuestions(c.questions, supply, used)
      case Err(e) => Err(e)
      case Ok(done) => Ok((StripTo(t, c.(questions := done.0)), done.1))
  }

  /** `normalizeAndValidateContent`. */
  function Clean(t: ResourceType, c: Content, supply: Supply, used: nat): Result<(Content, nat), ContentError> {
    match t
    case Material =>
      var m := c.(url := Text.TrimSpace(c.url), description := Text.TrimSpace(c.description));
      if m.fileAsset.None? && m.url == "" then Err(NeedsFileOrLink)
      else if m.url != "" && !IsHttpUrl(m.url) then Err(BadLink)
      else Ok((StripTo(t, m), used))
    case Article =>
      var a := c.(body := Text.TrimSpace(c.body));
      if a.body == "" then Err(NoBody) else Ok((StripTo(t, a), used))
    case Writing =>
      var w := c.(prompt := Text.TrimSpace(c.prompt), rubric := Text.TrimSpace(c.rubric));
      if w.prompt == "" then Err(NoPrompt)
      else if w.minWords < 0 then Err(NegativeWords)
      else Ok((StripTo(t, w), used))
    case Quiz => CleanQuizLike(t, c, supply, used)
    case Listening => if c.audioAsset.None? then Err(NoAudio) else CleanQuizLike(t, c, supply, used)
    case Reading =>
      var r := c.(passage := Text.TrimSpace(c.passage));
      if r.passage == "" then Err(NoPassage) else CleanQuizLike(t, r, supply, used)
    case Other(_) => Err(UnknownType)
  }

  method NormalizeAndValidateContent(t: ResourceType, content: ContentOf<Draft>, supply: Supply, used: nat)
    returns (r: Result<(Content, nat), ContentError>)
    requires OwnSlices(content.questions)
    modifies Slices(content.questions)
    ensures r == Clean(t, WithQuestions(content, old(Values(content.questions))), supply, used)
  {
    hide Text.TrimSpace, CleanQuestions;
    var c := WithQuestions<Draft, Question>(content, []);
    match t {
      case Material =>
        c := c.(url := Text.TrimSpace(c.url));
        c := c.(description := Text.TrimSpace(c.description));
        if c.fileAsset.None? && c.url == "" {
          return Err(NeedsFileOrLink);
        }
        if c.url != "" && !IsHttpUrl(c.url) {
          return Err(BadLink);
        }
        return Ok((StripTo(t, c), used));
      case Article =>
        c := c.(body := Text.TrimSpace(c.body));
        if c.body == "" {
          return Err(NoBody);
        }
        return Ok((StripTo(t, c), used));
      case Writing =>
        c := c.(prompt := Text.TrimSpace(c.prompt));
        c := c.(rubric := Text.TrimSpace(c.rubric));
        if c.prompt == "" {
          return Err(NoPrompt);
        }
        if c.minWords < 0 {
          return Err(NegativeWords);
        }
        return Ok((StripTo(t, c), used));
      case Other(_) =>
        return Err(UnknownType);
      case _ =>
    }
    if t == Listening && c.audioAsset.None? {
      return Err(NoAudio);
    }
    if t == Reading {
      c := c.(passage := Text.TrimSpace(c.passage));
      if c.passage == "" {
        return Err(NoPassage);
      }
    }
    if |content.questions| == 0 {
      return Err(NoQuestions);
    }
    var qs := NormalizeQuestions(content.questions, supply, used);
    if qs.Err? {
      return Err(qs.error);
    }
    c := c.(questions := qs.value.0);
    return Ok((StripTo(t, c), qs.value.1));
  }

  // --- what is stored -----------------------------------------------------------------------------

  predicate Filled(s: string) {
    s != "" && Text.Trimmed(s)
  }

  predicate StoredChoice(c: Choice) {
    c.id != "" && Filled(c.text)
  }

  predicate StoredChoices(cs: seq<Choice>) {
    |cs| >= 2 && forall i :: 0 <= i < |cs| ==> StoredChoice(cs[i])
  }

  predicate StoredQuestion(q: Question) {
    && Filled(q.prompt) && q.id != "" && q.points > 0 && q.correct != []
    && match q.kind
       case "text" => q.choices == [] && forall a :: a in q.correct ==> Filled(a)
       case "single" => StoredChoices(q.choices) && |q.correct| == 1 && Marks(q)
       case "multi" => StoredChoices(q.choices) && Marks(q)
       case _ => false
  }

  /** The correct ids are distinct, not blank, and among the question's choices. */
  predicate Marks(q: Question) {
    Distinct(q.correct) && "" !in q.correct && forall m :: m in q.correct ==> m in Ids(q.choices)
  }

  predicate StoredQuestions(qs: seq<Question>) {
    forall i :: 0 <= i < |qs| ==> StoredQuestion(qs[i])
  }

  /** What a stored payload looks like, said without reference to the normalizer. */
  predicate Stored(t: ResourceType, c: Content) {
    match t
    case Material =>
      && c == Content(c.fileAsset, c.url, c.description, "", "", None, [], "", 0, "")
      && Text.Trimmed(c.url) && Text.Trimmed(c.description)
      && (c.url == "" ==> c.fileAsset.Some?) && (c.url != "" ==> IsHttpUrl(c.url))
    case Article => c == Content(None, "", "", c.body, "", None, [], "", 0, "") && Filled(c.body)
    case Writing =>
      && c == Content(None, "", "", "", "", None, [], c.prompt, c.minWords, c.rubric)
      && Filled(c.prompt) && Text.Trimmed(c.rubric) && c.minWords >= 0
    case Quiz => c == Content(None, "", "", "", "", None, c.questions, "", 0, "") && c.questions != [] && StoredQuestions(c.questions)
    case Listening =>
      && c == Content(None, "", "", "", "", c.audioAsset, c.questions, "", 0, "")
      && c.audioAsset.Some? && c.questions != [] && StoredQuestions(c.questions)
    case Reading =>
      && c == Content(None, "", "", "", c.passage, None, c.questions, "", 0, "")
      && Filled(c.passage) && c.questions != [] && StoredQuestions(c.questions)
    case Other(_) => false
  }

  lemma {:induction false} CleanedChoicesAreStored(cs: seq<Choice>, supply: Supply, used: nat)
    requires GoodSupply(supply) && CleanChoices(cs, supply, used).Some?
    ensures var out := CleanChoices(cs, supply, used).value.0;
            |out| == |cs| && forall i :: 0 <= i < |out| ==> StoredChoice(out[i])
  {
    hide CleanChoice, StoredChoice;
    if cs != [] {
      var init := cs[..|cs| - 1];
      CleanedChoicesAreStored(init, supply, used);
      CleanedChoiceIsStored(cs[|cs| - 1], supply, CleanChoices(init, supply, used).value.1);
    }
  }

  lemma CleanedChoiceIsStored(c: Choice, supply: Supply, used: nat)
    requires GoodSupply(supply) && CleanChoice(c, supply, used).Some?
    ensures StoredChoice(CleanChoice(c, supply, used).value.0)
  {
  }

  lemma {:induction false} StoredChoicesAreKept(cs: seq<Choice>, supply: Supply, used: nat)
    requires forall i :: 0 <= i < |cs| ==> StoredChoice(cs[i])
    ensures CleanChoices(cs, supply, used) == Some((cs, used))
  {
    hide CleanChoice, StoredChoice;
    if cs != [] {
      var init, last := cs[..|cs| - 1], cs[|cs| - 1];
      StoredChoicesAreKept(init, supply, used);
      StoredChoiceIsKept(last, supply, used);
      assert cs == init + [last];
    }
  }

  lemma StoredChoiceIsKept(c: Choice, supply: Supply, used: nat)
    requires StoredChoice(c)
    ensures CleanChoice(c, supply, used) == Some((c, used))
  {
    hide Text.TrimSpace;
  }

  lemma {:induction false} StoredAnswersAreKept(s: seq<string>)
    requires forall a :: a in s ==> Filled(a)
    ensures Answers(s) == s
  {
    hide Text.TrimSpace;
    if s != [] {
      StoredAnswersAreKept(s[..|s| - 1]);
      assert s == s[..|s| - 1] + [s[|s| - 1]];
      assert s[|s| - 1] in s;
    }
  }

  lemma CleanedQuestionIsStored(q: Question, supply: Supply, used: nat)
    requires GoodSupply(supply) && CleanQuestion(q, supply, used).Ok?
    ensures StoredQuestion(CleanQuestion(q, supply, used).value.0)
  {
    hide Text.TrimSpace, Dedupe, CleanChoices, Answers, Ids;
    var u := if q.id == "" then used + 1 else used;
    if q.kind == "single" || q.kind == "multi" {
      CleanedChoicesAreStored(q.choices, supply, u);
    }
  }

  lemma StoredQuestionIsKept(q: Question, supply: Supply, used: nat)
    requires StoredQuestion(q)
    ensures CleanQuestion(q, supply, used) == Ok((q, used))
  {
    hide Text.TrimSpace, Dedupe, CleanChoices, Answers, Ids;
    if q.kind == "text" {
      StoredAnswersAreKept(q.correct);
    } else {
      StoredChoicesAreKept(q.choices, supply, used);
    }
  }

  lemma {:induction false} CleanedQuestionsAreStored(qs: seq<Question>, supply: Supply, used: nat)
    requires GoodSupply(supply) && CleanQuestions(qs, supply, used).Ok?
    ensures var out := CleanQuestions(qs, supply, used).value.0; |out| == |qs| && StoredQuestions(out)
  {
    hide StoredQuestion, CleanQuestion;
    if qs != [] {
      var init := qs[..|qs| - 1];
      CleanedQuestionsAreStored(init, supply, used);
      CleanedQuestionIsStored(qs[|qs| - 1], supply, CleanQuestions(init, supply, used).value.1);
    }
  }

  lemma {:induction false} StoredQuestionsAreKept(qs: seq<Question>, supply: Supply, used: nat)
    requires StoredQuestions(qs)
    ensures CleanQuestions(qs, supply, used) == Ok((qs, used))
  {
    hide StoredQuestion, CleanQuestion;
    if qs != [] {
      var init := qs[..|qs| - 1];
      StoredQuestionsAreKept(init, supply, used);
      StoredQuestionIsKept(qs[|qs| - 1], supply, used);
      assert qs == init + [qs[|qs| - 1]];
    }
  }

  /** Whatever is accepted is stored in proper shape: nothing blank, correct ids among the choices, other fields empty. */
  lemma CleanedIsStored(t: ResourceType, c: Content, supply: Supply, used: nat)
    requires GoodSupply(supply) && Clean(t, c, supply, used).Ok?
    ensures Stored(t, Clean(t, c, supply, used).value.0)
  {
    if t == Quiz || t == Listening || t == Reading {
      CleanedQuestionsAreStored(c.questions, supply, used);
    }
  }

  /** Normalizing leaves a payload alone and draws no id exactly when it already has the stored shape. */
  lemma FixedPointsAreStored(t: ResourceType, c: Content, supply: Supply, used: nat)
    requires GoodSupply(supply)
    ensures Clean(t, c, supply, used) == Ok((c, used)) <==> Stored(t, c)
  {
    if Clean(t, c, supply, used) == Ok((c, used)) {
      CleanedIsStored(t, c, supply, used);
    }
    if Stored(t, c) {
      if t == Quiz || t == Listening || t == Reading {
        StoredQuestionsAreKept(c.questions, supply, used);
      }
    }
  }

  /** Accepted content, normalised again with any supply, is accepted unchanged with no new ids. */
  lemma NormalizedTwice(t: ResourceType, c: Content, supply: Supply, used: nat, again: Supply, used': nat)
    requires GoodSupply(supply) && GoodSupply(again) && Clean(t, c, supply, used).Ok?
    ensures var once := Clean(t, c, supply, used).value.0;
            Clean(t, once, again, used') == Ok((once, used'))
  {
    var once := Clean(t, c, supply, used).value.0;
    CleanedIsStored(t, c, supply, used);
    FixedPointsAreStored(t, once, again, used');
  }

  // --- what is accepted, and what becomes of it -----------------------------------------------------

  /** Generated ids are new: no question already marks one as correct. */
  ghost predicate FreshFor(qs: seq<Question>, supply: Supply) {
    forall k, i :: 0 <= i < |qs| ==> Unmarked(supply, k, qs[i])
  }

  ghost predicate Unmarked(supply: Supply, k: nat, q: Question) {
    supply(k) !in q.correct
  }

  predicate Blank(s: string) {
    Text.TrimSpace(s) == ""
  }

  predicate GivenId(q: Question, m: string) {
    exists i :: 0 <= i < |q.choices| && q.choices[i].id == m
  }

  /** Everything marked is one of the choices the author named, and something is marked. */
  predicate MarksGiven(q: Question) {
    && (exists m :: m in q.correct && m != "")
    && (forall m :: m in q.correct && m != "" ==> GivenId(q, m))
  }

  predicate AtMostOneMarked(q: Question) {
    forall m, n :: m in q.correct && n in q.correct && m != "" && n != "" ==> m == n
  }

  predicate AcceptableChoices(q: Question) {
    |q.choices| >= 2 && forall i :: 0 <= i < |q.choices| ==> !Blank(q.choices[i].text)
  }

  predicate AcceptableQuestion(q: Question) {
    && !Blank(q.prompt)
    && match q.kind
       case "text" => exists a :: a in q.correct && !Blank(a)
       case "single" => AcceptableChoices(q) && MarksGiven(q) && AtMostOneMarked(q)
       case "multi" => AcceptableChoices(q) && MarksGiven(q)
       case _ => false
  }

  predicate AcceptableQuestions(qs: seq<Question>) {
    qs != [] && forall i :: 0 <= i < |qs| ==> AcceptableQuestion(qs[i])
  }

  /** What an author must have written, said without reference to the normalizer. */
  predicate Acceptable(t: ResourceType, c: Content) {
    match t
    case Material =>
      && (c.fileAsset.Some? || !Blank(c.url))
      && (!Blank(c.url) ==> var url := Text.TrimSpace(c.url); "http://" <= url || "https://" <= url)
    case Article => !Blank(c.body)
    case Writing => !Blank(c.prompt) && c.minWords >= 0
    case Quiz => AcceptableQuestions(c.questions)
    case Listening => c.audioAsset.Some? && AcceptableQuestions(c.questions)
    case Reading => !Blank(c.passage) && AcceptableQuestions(c.questions)
    case Other(_) => false
  }

  /** A choice keeps its text, trimmed, and any id it came with; a generated id comes from the supply. */
  ghost predicate TidyChoice(c: Choice, out: Choice, supply: Supply) {
    && out.text == Text.TrimSpace(c.text)
    && (c.id != "" ==> out.id == c.id)
    && (c.id == "" ==> exists k :: Nth(supply, k, out.id))
  }

  ghost predicate Nth(supply: Supply, k: nat, id: string) {
    supply(k) == id
  }

  lemma {:induction false} ChoicesAreTidied(cs: seq<Choice>, supply: Supply, used: nat)
    ensures CleanChoices(cs, supply, used).Some? <==> forall i :: 0 <= i < |cs| ==> !Blank(cs[i].text)
    ensures CleanChoices(cs, supply, used).Some? ==>
              var out := CleanChoices(cs, supply, used).value.0;
              |out| == |cs| && forall i :: 0 <= i < |cs| ==> TidyChoice(cs[i], out[i], supply)
  {
    hide Text.TrimSpace, TidyChoice;
    if cs != [] {
      var n := |cs| - 1;
      var init := cs[..n];
      ChoicesAreTidied(init, supply, used);
      assert forall i :: 0 <= i < n ==> init[i] == cs[i];
      var done := CleanChoices(init, supply, used);
      if done.Some? { ChoiceIsTidied(cs[n], supply, done.value.1); }
    }
  }

  lemma ChoiceIsTidied(c: Choice, supply: Supply, used: nat)
    ensures CleanChoice(c, supply, used).Some? <==> !Blank(c.text)
    ensures CleanChoice(c, supply, used).Some? ==> TidyChoice(c, CleanChoice(c, supply, used).value.0, supply)
  {
    hide Text.TrimSpace;
    assert Nth(supply, used, supply(used));
  }

  /** With fresh generated ids, a mark names a cleaned choice exactly when it names a given one. */
  lemma MarksNameGivenChoices(q: Question, out: seq<Choice>, supply: Supply, m: string)
    requires |out| == |q.choices| && forall i :: 0 <= i < |out| ==> TidyChoice(q.choices[i], out[i], supply)
    requires forall k :: Unmarked(supply, k, q)
    requires m in q.correct && m != ""
    ensures m in Ids(out) <==> GivenId(q, m)
  {
    hide Text.TrimSpace;
    if m in Ids(out) {
      var c :| c in out && c.id == m;
      var i :| 0 <= i < |out| && out[i] == c;
      assert TidyChoice(q.choices[i], out[i], supply);
      assert forall k :: Nth(supply, k, m) ==> !Unmarked(supply, k, q);
      assert q.choices[i].id == m;
    }
    if GivenId(q, m) {
      var i :| 0 <= i < |q.choices| && q.choices[i].id == m;
      assert TidyChoice(q.choices[i], out[i], supply) && out[i] in out;
    }
  }

  lemma {:induction false} AnswersAreNonBlank(s: seq<string>)
    ensures Answers(s) != [] <==> exists a :: a in s && !Blank(a)
  {
    hide Text.TrimSpace;
    if s != [] {
      var init, last := s[..|s| - 1], s[|s| - 1];
      AnswersAreNonBlank(init);
      assert s == init + [last];
      assert Answers(s) == Answers(init) + if Blank(last) then [] else [Text.TrimSpace(last)];
      if !Blank(last) {
        assert last in s;
      } else if exists a :: a in init && !Blank(a) {
        var a :| a in init && !Blank(a);
        assert a in s;
      }
    }
  }

  lemma OneMark(q: Question)
    requires exists m :: m in q.correct && m != ""
    ensures Dedupe(q.correct) != []
    ensures |Dedupe(q.correct)| == 1 <==> AtMostOneMarked(q)
  {
    hide Dedupe;
    var d := Dedupe(q.correct);
    var m :| m in q.correct && m != "";
    assert m in d;
    if |d| >= 2 { assert d[0] in d && d[1] in d && d[0] != d[1]; }
  }

  lemma QuestionAcceptedIff(q: Question, supply: Supply, used: nat)
    requires forall k :: Unmarked(supply, k, q)
    ensures CleanQuestion(q, supply, used).Ok? <==> AcceptableQuestion(q)
  {
    hide Text.TrimSpace, CleanChoices, Dedupe, Answers, TidyChoice, Unmarked, GivenId, Ids, AtMostOneMarked;
    if q.kind == "text" {
      AnswersAreNonBlank(q.correct);
    } else {
      var u := if q.id == "" then used + 1 else used;
      ChoicesAreTidied(q.choices, supply, u);
      if CleanChoices(q.choices, supply, u).Some? {
        MarksAcceptedIff(q, CleanChoices(q.choices, supply, u).value.0, supply);
      }
    }
  }

  lemma MarksAcceptedIff(q: Question, out: seq<Choice>, supply: Supply)
    requires |out| == |q.choices| && forall i :: 0 <= i < |out| ==> TidyChoice(q.choices[i], out[i], supply)
    requires forall k :: Unmarked(supply, k, q)
    ensures (Dedupe(q.correct) != [] && forall m :: m in Dedupe(q.correct) ==> m in Ids(out)) <==> MarksGiven(q)
    ensures MarksGiven(q) ==> (|Dedupe(q.correct)| == 1 <==> AtMostOneMarked(q))
  {
    hide TidyChoice, Unmarked, GivenId, Ids, AtMostOneMarked;
    forall m | m in q.correct && m != "" ensures m in Ids(out) <==> GivenId(q, m) {
      MarksNameGivenChoices(q, out, supply, m);
    }
    var d := Dedupe(q.correct);
    if d != [] { assert d[0] in d; }
    if MarksGiven(q) { OneMark(q); }
  }

  lemma {:induction false} QuestionsAcceptedIff(qs: seq<Question>, supply: Supply, used: nat)
    requires FreshFor(qs, supply)
    ensures CleanQuestions(qs, supply, used).Ok? <==> forall i :: 0 <= i < |qs| ==> AcceptableQuestion(qs[i])
  {
    hide CleanQuestion, AcceptableQuestion, Unmarked;
    if qs != [] {
      var n := |qs| - 1;
      var init := qs[..n];
      forall k, i | 0 <= i < |init| ensures Unmarked(supply, k, init[i]) { assert init[i] == qs[i]; }
      QuestionsAcceptedIff(init, supply, used);
      assert forall i :: 0 <= i < n ==> init[i] == qs[i];
      var done := CleanQuestions(init, supply, used);
      if done.Ok? {
        assert forall k :: Unmarked(supply, k, qs[n]);
        QuestionAcceptedIff(qs[n], supply, done.value.1);
      }
    }
  }

  /** Exactly what is accepted, for every type. */
  lemma AcceptedIff(t: ResourceType, c: Content, supply: Supply, used: nat)
    requires FreshFor(c.questions, supply)
    ensures Clean(t, c, supply, used).Ok? <==> Acceptable(t, c)
  {
    hide Text.TrimSpace, AcceptableQuestion;
    QuestionsAcceptedIff(c.questions, supply, used);
  }

  /** What one accepted question becomes: the author's own words, marks and points, tidied. */
  ghost predicate Tidied(q: Question, out: Question, supply: Supply) {
    && out.prompt == Text.TrimSpace(q.prompt) && out.kind == q.kind
    && out.points == (if q.points > 0 then q.points else 1)
    && (q.id != "" ==> out.id == q.id)
    && (if q.kind == "text" then out.correct == Answers(q.correct)
        else
          && (forall m :: m in out.correct <==> m in q.correct && m != "")
          && |out.choices| == |q.choices|
          && forall i :: 0 <= i < |q.choices| ==> TidyChoice(q.choices[i], out.choices[i], supply))
  }

  lemma QuestionIsTidied(q: Question, supply: Supply, used: nat)
    requires CleanQuestion(q, supply, used).Ok?
    ensures Tidied(q, CleanQuestion(q, supply, used).value.0, supply)
  {
    hide Text.TrimSpace, CleanChoices, Dedupe, Answers, TidyChoice, Ids;
    if q.kind != "text" {
      ChoicesAreTidied(q.choices, supply, if q.id == "" then used + 1 else used);
    }
  }

  ghost predicate AllTidied(qs: seq<Question>, out: seq<Question>, supply: Supply) {
    |out| == |qs| && forall i :: 0 <= i < |qs| ==> Tidied(qs[i], out[i], supply)
  }

  lemma {:induction false} QuestionsAreTidied(qs: seq<Question>, supply: Supply, used: nat)
    requires CleanQuestions(qs, supply, used).Ok?
    ensures var out := CleanQuestions(qs, supply, used).value.0;
            AllTidied(qs, out, supply)
  {
    hide CleanQuestion, Tidied;
    if qs != [] {
      var n := |qs| - 1;
      QuestionsAreTidied(qs[..n], supply, used);
      QuestionIsTidied(qs[n], supply, CleanQuestions(qs[..n], supply, used).value.1);
      assert forall i :: 0 <= i < n ==> qs[..n][i] == qs[i];
    }
  }

  /** Nothing the author wrote for this type is lost or altered beyond trimming. */
  lemma NothingIsLost(t: ResourceType, c: Content, supply: Supply, used: nat)
    requires Clean(t, c, supply, used).Ok?
    ensures var out := Clean(t, c, supply, used).value.0;
            match t
            case Material =>
              out.fileAsset == c.fileAsset && out.url == Text.TrimSpace(c.url) && out.description == Text.TrimSpace(c.description)
            case Article => out.body == Text.TrimSpace(c.body)
            case Writing =>
              out.prompt == Text.TrimSpace(c.prompt) && out.rubric == Text.TrimSpace(c.rubric) && out.minWords == c.minWords
            case Quiz => AllTidied(c.questions, out.questions, supply)
            case Listening => out.audioAsset == c.audioAsset && AllTidied(c.questions, out.questions, supply)
            case Reading => out.passage == Text.TrimSpace(c.passage) && AllTidied(c.questions, out.questions, supply)
            case Other(_) => true
  {
    hide Text.TrimSpace, Tidied;
    if t == Quiz || t == Listening || t == Reading {
      QuestionsAreTidied(c.questions, supply, used);
    }
  }
}
