/** The decision `get_pages` makes: query the "Prêt" pages oldest first, send
    the first one as a quiz poll, and mark it published only if the poll was
    accepted. The HTTP answers and the clock reading are parameters. */
module Publish {
  import opened Wrappers
  import opened Poll
  import opened PageMapping

  /** What the database query answered: its HTTP status and, on 200, the
      `results` list, oldest page first. */
  datatype QueryResponse = QueryResponse(status: int, results: seq<Page>)

  /** The PATCH `update_status` sends: the page, its new status and the
      publication time (an ISO-8601 reading of the clock). */
  datatype StatusPatch = StatusPatch(pageId: string, status: string, publishedDate: string)

  const PublishedStatus: string := "Publié"

  /** How one run ends, with the requests it makes. */
  datatype Run =
    | QueryFailed(status: int)                            // error printed, nothing else
    | NoReadyPage                                         // empty result list
    | Aborted(error: PyError)                             // exception raised before the poll request
    | PollRejected(request: PollPayload, status: int)     // poll posted, answer not 200
    | Published(request: PollPayload, patch: StatusPatch) // poll accepted, status patched

  /** The sendPoll request of a run, if one was made. */
  function PollRequest(r: Run): Option<PollPayload> {
    match r
    case PollRejected(request, _) => Some(request)
    case Published(request, _) => Some(request)
    case _ => None
  }

  /** The status PATCH of a run, if one was made. */
  function StatusUpdate(r: Run): Option<StatusPatch> {
    if r.Published? then Some(r.patch) else None
  }

  /** `update_status(page_id)`: marks the page "Publié" at time `now`. */
  function UpdateStatus(pageId: string, now: string): (p: StatusPatch)
    ensures p.pageId == pageId && p.status == "Publié" && p.publishedDate == now
  {
    StatusPatch(pageId, PublishedStatus, now)
  }

  /** `get_pages`, with `pollStatus` the HTTP status the sendPoll request would
      get and `now` the clock reading `update_status` would take. */
  function GetPages(chatId: string, query: QueryResponse, pollStatus: int, now: string): (r: Run)
    ensures PollRequest(r).Some? <==>
      query.status == 200 && |query.results| > 0 &&
      SimpleQuiz(query.results[0]).Success? &&
      SendPollPayload(chatId, SimpleQuiz(query.results[0]).value).Success?
    ensures StatusUpdate(r).Some? ==> PollRequest(r).Some? && pollStatus == 200
  {
    if query.status != 200 then QueryFailed(query.status)
    else if |query.results| == 0 then NoReadyPage
    else
      var page := query.results[0];
      match SimpleQuiz(page)
      case Failure(e) => Aborted(e)
      case Success(quiz) =>
        match SendPollPayload(chatId, quiz)
        case Failure(e) => Aborted(e)
        case Success(request) =>
          if pollStatus == 200 then Published(request, UpdateStatus(page.id, now))
          else PollRejected(request, pollStatus)
  }

  /** The status is patched exactly when the query answered 200, a page came
      back, the first page mapped and had a correct answer, and the poll was
      accepted; the patch then marks that first page "Publié". */
  lemma UpdateOnlyAfterAcceptedPoll(chatId: string, query: QueryResponse, pollStatus: int, now: string)
    ensures var r := GetPages(chatId, query, pollStatus, now);
      StatusUpdate(r).Some? <==>
        query.status == 200 && |query.results| > 0 &&
        SimpleQuiz(query.results[0]).Success? &&
        SendPollPayload(chatId, SimpleQuiz(query.results[0]).value).Success? &&
        pollStatus == 200
    ensures var r := GetPages(chatId, query, pollStatus, now);
      StatusUpdate(r).Some? ==>
        StatusUpdate(r).value == StatusPatch(query.results[0].id, "Publié", now)
  {
  }

  /** The poll sent is the payload of the oldest ready page: its question, its
      four answers in A, B, C, D order, and the first correct one marked. */
  lemma PollIsOldestPage(chatId: string, query: QueryResponse, pollStatus: int, now: string)
    requires PollRequest(GetPages(chatId, query, pollStatus, now)).Some?
    ensures query.status == 200 && |query.results| > 0
    ensures SimpleQuiz(query.results[0]).Success?
    ensures var quiz := SimpleQuiz(query.results[0]).value;
      var request := PollRequest(GetPages(chatId, query, pollStatus, now)).value;
      request.chatId == chatId && request.pollType == "quiz" &&
      request.question == quiz.question &&
      |request.options| == 4 &&
      (forall i :: 0 <= i < 4 ==> request.options[i].text == quiz.answers[i].text) &&
      IsFirstCorrect(quiz.answers, request.correctOptionId)
  {
  }

  /** A page whose four answers are all unmarked raises IndexError: no poll is
      requested and nothing is updated. */
  lemma NoCorrectAnswerNoRequest(chatId: string, query: QueryResponse, pollStatus: int, now: string)
    requires query.status == 200 && |query.results| > 0
    requires SimpleQuiz(query.results[0]).Success?
    requires forall i :: 0 <= i < 4 ==> !SimpleQuiz(query.results[0]).value.answers[i].isCorrect
    ensures GetPages(chatId, query, pollStatus, now) == Aborted(IndexError)
    ensures PollRequest(GetPages(chatId, query, pollStatus, now)).None?
    ensures StatusUpdate(GetPages(chatId, query, pollStatus, now)).None?
  {
  }

  /** A page that cannot be mapped raises the first failing read's error, and
      nothing is sent or updated. */
  lemma UnmappablePageAborts(chatId: string, query: QueryResponse, pollStatus: int, now: string)
    requires query.status == 200 && |query.results| > 0
    requires FirstReadError(query.results[0].properties, QuizFields).Some?
    ensures GetPages(chatId, query, pollStatus, now) ==
      Aborted(FirstReadError(query.results[0].properties, QuizFields).value)
  {
    SimpleQuizError(query.results[0]);
  }

  /** A failed query or an empty result list sends nothing and updates nothing. */
  lemma NothingToDo(chatId: string, query: QueryResponse, pollStatus: int, now: string)
    requires query.status != 200 || query.results == []
    ensures PollRequest(GetPages(chatId, query, pollStatus, now)).None?
    ensures StatusUpdate(GetPages(chatId, query, pollStatus, now)).None?
  {
  }

  /** Example: a page with id 7, "2+2=?", answers 3, 4, 5, 22 with
      only 4 correct. */
  function ExamplePage(): Page {
    Page("page-7", map[
      "ID" := UniqueIdProp(7),
      "Statement" := TitleProp([RichText("2+2=?")]),
      "A answer" := RichTextProp([RichText("3")]), "A" := CheckboxProp(false),
      "B answer" := RichTextProp([RichText("4")]), "B" := CheckboxProp(true),
      "C answer" := RichTextProp([RichText("5")]), "C" := CheckboxProp(false),
      "D answer" := RichTextProp([RichText("22")]), "D" := CheckboxProp(false),
      "Status" := OtherProp])
  }

  /** The quiz `ExamplePage` maps to. */
  function ExampleQuiz(): Quiz {
    Quiz(7, "2+2=?", [Proposition("3", false), Proposition("4", true),
                      Proposition("5", false), Proposition("22", false)])
  }

  lemma ExamplePageMaps()
    ensures SimpleQuiz(ExamplePage()) == Success(ExampleQuiz())
  {
    var props := ExamplePage().properties;
    var quiz := ExampleQuiz();
    assert UniqueIdNumber(props, "ID") == Success(7);
    assert FirstTitleText(props, "Statement") == Success("2+2=?");
    assert "A" + " answer" == "A answer";
    ExampleProposition("A", "3", false);
    assert "B" + " answer" == "B answer";
    ExampleProposition("B", "4", true);
    assert "C" + " answer" == "C answer";
    ExampleProposition("C", "5", false);
    assert "D" + " answer" == "D answer";
    ExampleProposition("D", "22", false);
  }

  lemma ExampleProposition(name: string, text: string, isCorrect: bool)
    requires name in ExamplePage().properties && name + " answer" in ExamplePage().properties
    requires ExamplePage().properties[name + " answer"] == RichTextProp([RichText(text)])
    requires ExamplePage().properties[name] == CheckboxProp(isCorrect)
    ensures ExtractProposition(ExamplePage().properties, name) == Success(Proposition(text, isCorrect))
  {
  }

  /** Example, end to end: the poll has options 3, 4, 5, 22 and
      correct option 1, and once accepted the page is marked "Publié". */
  lemma ExampleRun(chatId: string, now: string)
    ensures var r := GetPages(chatId, QueryResponse(200, [ExamplePage()]), 200, now);
      r.Published? &&
      r.request.options == [PollOption("3"), PollOption("4"), PollOption("5"), PollOption("22")] &&
      r.request.correctOptionId == 1 && r.request.question == "2+2=?" &&
      r.patch == StatusPatch("page-7", "Publié", now)
  {
    ExamplePageMaps();
    CorrectOptionExample(chatId);
  }
}
