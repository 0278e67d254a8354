/** Clarification questions and the answers to them. */
module Questions {
  import opened Basics

  datatype Choice = Choice(name: string, description: string)

  datatype Question = Question(id: Id, header: string, text: string, options: seq<Choice>)

  datatype Given = Given(option: string, custom: string)

  /** unicode.IsSpace. */
  predicate IsSpace(c: char) {
    var n := c as int;
    || 9 <= n <= 13 || n == 32 || n == 0x85 || n == 0xA0 || n == 0x1680 || 0x2000 <= n <= 0x200A
    || n == 0x2028 || n == 0x2029 || n == 0x202F || n == 0x205F || n == 0x3000
  }

  /** Nothing is left when white space is trimmed. */
  predicate Blank(s: string) {
    forall i :: 0 <= i < |s| ==> IsSpace(s[i])
  }

  /** The length of s in bytes, as UTF-8. */
  function ByteLength(s: string): nat {
    if s == "" then 0
    else
      var n := s[0] as int;
      (if n < 0x80 then 1 else if n < 0x800 then 2 else if n < 0x10000 then 3 else 4) + ByteLength(s[1..])
  }

  predicate Offers(q: Question, name: string) {
    exists k :: 0 <= k < |q.options| && q.options[k].name == name
  }

  // ---------------------------------------------------------------- questions

  predicate ChoicesFine(options: seq<Choice>) {
    && (forall k :: 0 <= k < |options| ==> !Blank(options[k].name) && !Blank(options[k].description))
    && (forall j, k :: 0 <= j < k < |options| ==> options[j].name != options[k].name)
  }

  predicate QuestionFine(q: Question) {
    && q.id != "" && !Blank(q.text) && q.header != "" && |q.header| <= 12
    && 2 <= |q.options| <= 3 && ChoicesFine(q.options)
  }

  /** One to three questions with distinct identifiers, each with two or three distinct options. */
  predicate QuestionsFine(qs: seq<Question>) {
    && 1 <= |qs| <= 3
    && (forall k :: 0 <= k < |qs| ==> QuestionFine(qs[k]))
    && (forall j, k :: 0 <= j < k < |qs| ==> qs[j].id != qs[k].id)
  }

  method CheckChoices(options: seq<Choice>) returns (ok: bool)
    ensures ok <==> ChoicesFine(options)
  {
    hide Blank;
    var labels: set<string> := {};
    var k := 0;
    while k < |options|
      invariant 0 <= k <= |options| && ChoicesFine(options[..k])
      invariant forall x :: x in labels <==> exists j :: 0 <= j < k && options[j].name == x
    {
      var o := options[k];
      if Blank(o.name) || Blank(o.description) || o.name in labels {
        return false;
      }
      labels := labels + {o.name};
      k := k + 1;
    }
    assert options[..k] == options;
    return true;
  }

  /** The question part of Interaction.Validate. */
  method CheckQuestions(qs: seq<Question>) returns (ok: bool)
    ensures ok <==> QuestionsFine(qs)
  {
    hide Blank, ChoicesFine;
    if |qs| < 1 || |qs| > 3 {
      return false;
    }
    var seen: set<Id> := {};
    var k := 0;
    while k < |qs|
      invariant 0 <= k <= |qs|
      invariant forall j :: 0 <= j < k ==> QuestionFine(qs[j])
      invariant forall i, j :: 0 <= i < j < k ==> qs[i].id != qs[j].id
      invariant forall x :: x in seen <==> exists j :: 0 <= j < k && qs[j].id == x
    {
      var q := qs[k];
      if q.id == "" || q.id in seen || Blank(q.text) || q.header == "" || |q.header| > 12 || |q.options| < 2
          || |q.options| > 3 {
        return false;
      }
      seen := seen + {q.id};
      ok := CheckChoices(q.options);
      if !ok {
        return;
      }
      k := k + 1;
    }
    return true;
  }

  // ---------------------------------------------------------------- answers

  const CUSTOM_LIMIT := 4096

  /** Exactly one of an option and a text of one's own; the option is looked up only when there is no
      custom text at all. */
  predicate AnswerFine(q: Question, a: Given) {
    && ((a.option == "") != Blank(a.custom))
    && if a.custom != "" then ByteLength(a.custom) <= CUSTOM_LIMIT else Offers(q, a.option)
  }

  predicate AnswersFine(qs: seq<Question>, answers: map<Id, Given>) {
    |answers| == |qs| && forall k :: 0 <= k < |qs| ==> qs[k].id in answers && AnswerFine(qs[k], answers[qs[k].id])
  }

  /** The clarification part of ValidateReply. */
  method CheckAnswers(qs: seq<Question>, answers: map<Id, Given>) returns (ok: bool)
    ensures ok <==> AnswersFine(qs, answers)
  {
    hide Blank, ByteLength;
    if |answers| != |qs| {
      return false;
    }
    var k := 0;
    while k < |qs|
      invariant 0 <= k <= |qs|
      invariant forall j :: 0 <= j < k ==> qs[j].id in answers && AnswerFine(qs[j], answers[qs[j].id])
    {
      var q := qs[k];
      if q.id !in answers {
        return false;
      }
      var a := answers[q.id];
      if (a.option == "") == Blank(a.custom) {
        return false;
      }
      if a.custom != "" {
        if ByteLength(a.custom) > CUSTOM_LIMIT {
          return false;
        }
      } else {
        var found := false;
        var j := 0;
        while j < |q.options|
          invariant 0 <= j <= |q.options| && (found <==> exists i :: 0 <= i < j && q.options[i].name == a.option)
        {
          found := found || a.option == q.options[j].name;
          j := j + 1;
        }
        if !found {
          return false;
        }
      }
      k := k + 1;
    }
    return true;
  }

  function Ids(qs: seq<Question>): set<Id> {
    set k | 0 <= k < |qs| :: qs[k].id
  }

  lemma {:induction false} IdsCount(qs: seq<Question>)
    requires forall j, k :: 0 <= j < k < |qs| ==> qs[j].id != qs[k].id
    ensures |Ids(qs)| == |qs|
  {
    if qs != [] {
      var rest, last := qs[..|qs| - 1], qs[|qs| - 1];
      IdsCount(rest);
      assert Ids(qs) == Ids(rest) + {last.id};
      assert last.id !in Ids(rest);
    }
  }

  lemma SameSize(a: set<Id>, b: set<Id>)
    requires a <= b && |a| == |b|
    ensures a == b
  {
    assert |b - a| == |b| - |a|;
  }

  /** An accepted reply answers exactly the questions asked: none is left out and nothing is added. */
  lemma AnswersExactlyTheQuestions(qs: seq<Question>, answers: map<Id, Given>)
    requires QuestionsFine(qs) && AnswersFine(qs, answers)
    ensures answers.Keys == Ids(qs)
  {
    IdsCount(qs);
    forall x | x in Ids(qs) ensures x in answers.Keys {
    }
    assert |answers.Keys| == |answers|;
    SameSize(Ids(qs), answers.Keys);
  }

  /** A custom text that is nothing but white space and within the limit. */
  predicate HidesOption(custom: string) {
    custom != "" && Blank(custom) && ByteLength(custom) <= CUSTOM_LIMIT
  }

  /** Beside a given custom text, an accepted option is always one that the question offers, exactly unless
      the text is white space: then every option is accepted, offered or not. */
  lemma OptionIsOffered(q: Question, custom: string)
    requires QuestionFine(q)
    ensures (forall option :: option != "" && AnswerFine(q, Given(option, custom)) ==> Offers(q, option))
      <==> !HidesOption(custom)
    ensures HidesOption(custom) ==> forall option :: option != "" ==> AnswerFine(q, Given(option, custom))
  {
    hide ByteLength;
    if HidesOption(custom) {
      var other := Longer(q.options);
      assert other != "" && AnswerFine(q, Given(other, custom));
      Unoffered(q);
    }
  }

  lemma Unoffered(q: Question)
    ensures !Offers(q, Longer(q.options))
  {
    hide Longer;
    if Offers(q, Longer(q.options)) {
      var k :| 0 <= k < |q.options| && q.options[k].name == Longer(q.options);
      LongerThan(q.options, k);
    }
  }

  /** A label that is none of the given ones. */
  function Longer(options: seq<Choice>): string {
    if options == [] then "x" else Longer(options[..|options| - 1]) + options[|options| - 1].name + "x"
  }

  lemma {:induction false} LongerThan(options: seq<Choice>, k: nat)
    requires k < |options|
    ensures |Longer(options)| > |options[k].name|
  {
    if k < |options| - 1 {
      LongerThan(options[..|options| - 1], k);
    }
  }

  /** Without an option, an answer is accepted exactly if its text says something and is not too long; without a text of
      one's own, exactly if it names an offered option; with both, never, unless the text is white space. */
  lemma {:induction false} AnswerContract(q: Question, option: string, custom: string)
    requires QuestionFine(q)
    ensures AnswerFine(q, Given("", custom)) <==>
      (exists i :: 0 <= i < |custom| && !IsSpace(custom[i])) && ByteLength(custom) <= 4096
    ensures AnswerFine(q, Given(option, "")) <==> exists k :: 0 <= k < |q.options| && q.options[k].name == option
    ensures option != "" && AnswerFine(q, Given(option, custom)) ==>
      forall i :: 0 <= i < |custom| ==> IsSpace(custom[i])
  {
    hide IsSpace, ByteLength;
    assert Blank("");
    forall k | 0 <= k < |q.options| ensures q.options[k].name != "" {
      assert !Blank(q.options[k].name);
    }
  }
}
