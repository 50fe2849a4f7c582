/** Turning a quiz's answers into a Telegram quiz poll: `convert_to_input_poll`
    and the payload that `send_poll` posts. */
module Poll {
  import opened Wrappers

  /** One answer of a quiz: its text and whether it is a correct answer. */
  datatype Proposition = Proposition(text: string, isCorrect: bool)

  /** A quiz as produced from a database page: `{id, question, answers}`. */
  datatype Quiz = Quiz(id: int, question: string, answers: seq<Proposition>)

  /** One poll option, `{"text": ...}`. */
  datatype PollOption = PollOption(text: string)

  /** The form data of the sendPoll request. The options are kept as a list;
      their JSON encoding is not modelled. */
  datatype PollPayload = PollPayload(
    chatId: string,
    question: string,
    pollType: string,
    correctOptionId: nat,
    options: seq<PollOption>)

  const QuizPollType: string := "quiz"

  predicate StrictlyIncreasing(s: seq<nat>) {
    forall j, k :: 0 <= j < k < |s| ==> s[j] < s[k]
  }

  /** `k` is the smallest position whose answer is marked correct. */
  predicate IsFirstCorrect(answers: seq<Proposition>, k: int) {
    0 <= k < |answers| && answers[k].isCorrect &&
    forall j :: 0 <= j < k ==> !answers[j].isCorrect
  }

  /** The poll options for `answers`, built from the front as the loop does. */
  function PollOptions(answers: seq<Proposition>): seq<PollOption>
    decreases |answers|
  {
    if answers == [] then []
    else
      var n := |answers| - 1;
      PollOptions(answers[..n]) + [PollOption(answers[n].text)]
  }

  /** The positions of the correct answers, built from the front as the loop does. */
  function CorrectIndices(answers: seq<Proposition>): seq<nat>
    decreases |answers|
  {
    if answers == [] then []
    else
      var n := |answers| - 1;
      CorrectIndices(answers[..n]) + (if answers[n].isCorrect then [n] else [])
  }

  /** The options keep the answers' number and order, one text per answer. */
  lemma {:induction false} PollOptionsPreserveOrder(answers: seq<Proposition>)
    ensures |PollOptions(answers)| == |answers|
    ensures forall i :: 0 <= i < |answers| ==> PollOptions(answers)[i].text == answers[i].text
  {
    if answers != [] {
      var n := |answers| - 1;
      PollOptionsPreserveOrder(answers[..n]);
      forall i | 0 <= i < n
        ensures PollOptions(answers)[i].text == answers[i].text
      {
        assert answers[..n][i] == answers[i];
      }
    }
  }

  /** A position is listed exactly when it holds a correct answer. */
  lemma {:induction false} CorrectIndicesExact(answers: seq<Proposition>, i: int)
    ensures i in CorrectIndices(answers) <==> 0 <= i < |answers| && answers[i].isCorrect
  {
    if answers != [] {
      var n := |answers| - 1;
      CorrectIndicesExact(answers[..n], i);
      if 0 <= i < n {
        assert answers[..n][i] == answers[i];
      }
    }
  }

  /** The listed positions are in range, strictly increasing, and at most one
      per answer. */
  lemma {:induction false} CorrectIndicesIncreasing(answers: seq<Proposition>)
    ensures |CorrectIndices(answers)| <= |answers|
    ensures forall j :: 0 <= j < |CorrectIndices(answers)| ==> CorrectIndices(answers)[j] < |answers|
    ensures StrictlyIncreasing(CorrectIndices(answers))
  {
    if answers != [] {
      var n := |answers| - 1;
      CorrectIndicesIncreasing(answers[..n]);
    }
  }

  /** The first listed position is the smallest correct one, and the list is
      empty exactly when no answer is correct. */
  lemma {:induction false} FirstCorrectIndex(answers: seq<Proposition>)
    ensures CorrectIndices(answers) == [] <==> forall i :: 0 <= i < |answers| ==> !answers[i].isCorrect
    ensures CorrectIndices(answers) != [] ==> IsFirstCorrect(answers, CorrectIndices(answers)[0])
  {
    var c := CorrectIndices(answers);
    CorrectIndicesIncreasing(answers);
    forall i | 0 <= i < |answers|
      ensures answers[i].isCorrect <==> i in c
    {
      CorrectIndicesExact(answers, i);
    }
    if c != [] {
      CorrectIndicesExact(answers, c[0]);
      assert forall m :: 0 <= m < |c| ==> c[0] <= c[m];
    }
  }

  /** `convert_to_input_poll`: one option per answer, in order, and the list of
      positions whose answer is correct. */
  method ConvertToInputPoll(answers: seq<Proposition>)
    returns (options: seq<PollOption>, correct: seq<nat>)
    ensures |options| == |answers| && |correct| <= |answers|
    ensures options == PollOptions(answers)
    ensures correct == CorrectIndices(answers)
    ensures forall i :: 0 <= i < |answers| ==> options[i].text == answers[i].text
    ensures forall i :: i in correct <==> 0 <= i < |answers| && answers[i].isCorrect
    ensures StrictlyIncreasing(correct)
    ensures forall j :: 0 <= j < |correct| ==> correct[j] < |answers|
  {
    options := [];
    correct := [];
    for index := 0 to |answers|
      invariant options == PollOptions(answers[..index])
      invariant correct == CorrectIndices(answers[..index])
    {
      assert answers[..index + 1][..index] == answers[..index];
      var answer := answers[index];
      options := options + [PollOption(answer.text)];
      if answer.isCorrect {
        correct := correct + [index];
      }
    }
    assert answers[..|answers|] == answers;
    PollOptionsPreserveOrder(answers);
    CorrectIndicesIncreasing(answers);
    forall i
      ensures i in correct <==> 0 <= i < |answers| && answers[i].isCorrect
    {
      CorrectIndicesExact(answers, i);
    }
  }

  /** The request `send_poll` builds for `quiz`. Taking `correct_answers_index[0]`
      raises IndexError when no answer is correct, before any request is made. */
  function SendPollPayload(chatId: string, quiz: Quiz): (r: Result<PollPayload, PyError>)
    ensures r.Failure? <==> forall i :: 0 <= i < |quiz.answers| ==> !quiz.answers[i].isCorrect
    ensures r.Failure? ==> r.error == IndexError
    ensures r.Success? ==>
      r.value.pollType == "quiz" && r.value.question == quiz.question && r.value.chatId == chatId
    ensures r.Success? ==>
      |r.value.options| == |quiz.answers| &&
      forall i :: 0 <= i < |quiz.answers| ==> r.value.options[i].text == quiz.answers[i].text
    ensures r.Success? ==> IsFirstCorrect(quiz.answers, r.value.correctOptionId)
  {
    var correct := CorrectIndices(quiz.answers);
    FirstCorrectIndex(quiz.answers);
    PollOptionsPreserveOrder(quiz.answers);
    if |correct| == 0 then
      Failure(IndexError)
    else
      Success(PollPayload(chatId, quiz.question, QuizPollType, correct[0], PollOptions(quiz.answers)))
  }

  /** Example: answers 3/false, 4/true, 5/false, 22/false give
      correct option 1 and the four texts in order. */
  lemma CorrectOptionExample(chatId: string)
    ensures var quiz := Quiz(7, "2+2=?", [Proposition("3", false), Proposition("4", true),
                                          Proposition("5", false), Proposition("22", false)]);
      var r := SendPollPayload(chatId, quiz);
      r.Success? && r.value.correctOptionId == 1 &&
      r.value.options == [PollOption("3"), PollOption("4"), PollOption("5"), PollOption("22")]
  {
    var answers := [Proposition("3", false), Proposition("4", true),
                    Proposition("5", false), Proposition("22", false)];
    var r := SendPollPayload(chatId, Quiz(7, "2+2=?", answers));
    assert answers[1].isCorrect;
    PollOptionsPreserveOrder(answers);
  }
}
