# QuizAnime publishing step, modelled in Dafny

QuizAnime publishes one quiz per run. It asks a Notion database for the pages
whose status is "Prêt", oldest first. It maps the first page to a quiz: a
numeric id, a question, and four propositions A–D, each with a text and a
"correct" checkbox. It posts the quiz to a Telegram chat as a quiz poll. If
Telegram accepts the poll, it marks the page "Publié" with a publication time.

This project models the deterministic logic between the HTTP calls:

- `poll.dfy` (module `Poll`): `convert_to_input_poll` and the payload that
  `send_poll` builds. `ConvertToInputPoll` is a method with the source's loop.
  It is proved equal to the prefix-recursive functions `PollOptions` and
  `CorrectIndices`. Lemmas about those functions give order preservation,
  exact membership of correct positions, strict increase, and "the first
  entry is the least correct position". `SendPollPayload` raises IndexError
  when no answer is correct. Otherwise it selects that least position.
- `page_mapping.dfy` (module `PageMapping`): `extract_proposition` and
  `generate_simple_quiz`. Page properties are a `map<string, Prop>` of typed
  Notion property objects. Python's nested subscripts become partial functions
  that return `Result`. Each read is described by a `Field` (name and expected
  type), and `ReadError` states what Python raises for it. The main lemma,
  `SimpleQuizError`, proves that the mapping raises exactly the error of the
  first failing read. Reads happen in the order ID, Statement, "A answer", A,
  …, "D answer", D. `GenerateSimpleQuiz` is the method that appends the four
  propositions. It is proved equal to `SimpleQuiz`.
- `publish.dfy` (module `Publish`): the branching of `get_pages` as the pure
  function `GetPages`. Its inputs are the query's status and results, the HTTP
  status the poll request would get, and the clock reading. It returns a `Run`
  that records which requests were made. `UpdateStatus` gives the PATCH
  content of `update_status`.
- `wrappers.dfy` (module `Wrappers`): `Option`, a `Result` usable with `:-`,
  and `PyError`, the KeyError/IndexError exceptions of the pipeline.

Two behaviours of `main.py` shape the model:

- With no correct answer, `send_poll` does not return a failure. It raises
  IndexError from `correct_answers_index[0]`. The exception ends the run
  before any poll request and before any status update. The model returns
  `Aborted(IndexError)`.
- A page property of the wrong Notion type is a KeyError on the type's key.
  For example, a `Statement` that is not a title property raises
  KeyError('title'). That is what the dictionary subscript does.

## Model

| member | source | states |
|---|---|---|
| Poll.ConvertToInputPoll | main.py:17-26 | the options have the answers' length and texts in order; there are at most as many indices as answers; `i` is among the correct indices iff `answers[i].is_correct`; the indices are strictly increasing and below `len(answers)`; the result equals `PollOptions`/`CorrectIndices` |
| Poll.PollOptionsPreserveOrder | main.py:21-22 | one poll option per answer, same length, `options[i].text == answers[i].text` |
| Poll.CorrectIndicesExact | main.py:21-24 | a position is recorded exactly when its answer is marked correct |
| Poll.CorrectIndicesIncreasing | main.py:21-24 | recorded positions are in `[0, len(answers))`, strictly increasing and no more numerous than the answers, because enumeration appends them in order |
| Poll.FirstCorrectIndex | main.py:21-24 | the index list is empty iff no answer is correct; otherwise its first entry is the least correct position |
| Poll.SendPollPayload | main.py:28-37 | fails with IndexError iff no answer is correct; otherwise the payload has type "quiz", the chat id, the unchanged question, the options in answer order, and `correct_option_id` equal to the least correct position |
| Poll.CorrectOptionExample | main.py:30-35 | answers 3/false, 4/true, 5/false, 22/false give options 3, 4, 5, 22 and `correct_option_id` 1 |
| PageMapping.UniqueIdNumber | main.py:53 | `props[key]["unique_id"]["number"]` fails exactly as `ReadError` says; on success the property is that unique id |
| PageMapping.FirstTitleText | main.py:54 | `props[key]["title"][0]["plain_text"]` fails exactly as `ReadError` says, with IndexError on an empty title; on success the value is the first title element's plain text |
| PageMapping.FirstRichText | main.py:47 | `props[key]["rich_text"][0]["plain_text"]` fails exactly as `ReadError` says, with IndexError on an empty list; on success the value is the first element's plain text |
| PageMapping.CheckboxValue | main.py:48 | `props[key]["checkbox"]` fails exactly as `ReadError` says; on success it is the checkbox value |
| PageMapping.ExtractProposition | main.py:45-49 | the error is the first failing read of `"<L> answer"` then `<L>`; on success the text is `"<L> answer".rich_text[0].plain_text` and the flag is `<L>.checkbox` |
| PageMapping.SimpleQuiz | main.py:51-65 | on success the id is `ID.unique_id.number`, the question is `Statement.title[0].plain_text`, and there are exactly four answers whose i-th comes from letter A, B, C, D in that order |
| PageMapping.GenerateSimpleQuiz | main.py:51-65 | the appending method returns exactly what `SimpleQuiz` gives, error included |
| PageMapping.SimpleQuizError | main.py:45-59 | the mapping raises exactly the error of the first failing read in the order ID, Statement, A answer, A, B answer, B, C answer, C, D answer, D, and raises nothing when all reads succeed |
| PageMapping.SimpleQuizSucceedsIff | main.py:45-59 | the mapping succeeds iff every one of the ten reads succeeds; any missing key, wrong-typed property or empty list aborts it |
| Publish.UpdateStatus | main.py:67-89 | the patch targets the given page, sets status "Publié" and records the given clock reading as the published date |
| Publish.GetPages | main.py:117-126 | a poll request is made iff the query returned 200, at least one page came back, the first page maps and it has a correct answer (so a rejected poll was still posted); a status update only after a poll request answered 200 |
| Publish.UpdateOnlyAfterAcceptedPoll | main.py:118-124 | the status is patched iff the query returned 200, results are non-empty, the first page maps, it has a correct answer, and the poll post returned 200; the patch then marks the first page "Publié" |
| Publish.PollIsOldestPage | main.py:120-123 | any poll request carries the first (oldest) page's question, its four answer texts in order and its least correct position |
| Publish.NoCorrectAnswerNoRequest | main.py:35-38 | a mapped page with no correct answer ends the run with IndexError, with no poll request and no update |
| Publish.UnmappablePageAborts | main.py:123 | a page with a failing read ends the run with that read's error before any request |
| Publish.NothingToDo | main.py:118-126 | a failed query or an empty result list makes no poll request and no update |
| Publish.ExamplePageMaps | main.py:51-65 | the example page (id 7, "2+2=?", 3/4/5/22 with B correct) maps to that quiz |
| Publish.ExampleRun | main.py:117-124 | for the example page with both calls answering 200, the run posts options 3, 4, 5, 22 with correct option 1 and patches the page to "Publié" |

## Left out

- HTTP: the database query (`requests.post`, main.py:117), the poll post (main.py:38) and the status PATCH (main.py:90) are not modelled as calls. Their statuses and the query's `results` are parameters of `GetPages`.
- The query's filter (status "Prêt") and its ascending creation-time sort are done by the database. The model takes `results` as already filtered and sorted.
- The `results` and `properties` keys of the response are assumed present. In the model they are fields of `QueryResponse` and `Page`.
- Environment loading (main.py:8-14): the chat id is a parameter. Tokens and URLs are not modelled.
- The publication time (`datetime.now` in the Africa/Douala zone, ISO-8601 formatting, main.py:68-69) is the opaque string parameter `now`.
- The JSON encoding of the options (`json.dumps`, main.py:36) is not modelled. The payload keeps the list of options.
- Request headers and URL strings (main.py:29, 70-75, 96-101) are not modelled.
- Error printing (main.py:92, 126) is not modelled. A failed status PATCH is not distinguished from a successful one, because the source only prints in that case.
- `answer["text"]` and `answer["is_correct"]` in `convert_to_input_poll` cannot fail in the model, because answers are typed records. In the source they always come from `extract_proposition`, which builds both keys.
- `plain_text` inside a rich-text element and `number` inside a unique id are taken as always present, as Notion always returns them.
