/**
 * The pure part of the homework-status bot: the credential check, the three
 * outcomes of one request to the homework-status API, the choice of the
 * record to act on, and the verdict table with the chat text built from it.
 */
module Homework {
  import opened Wrappers
  import opened PyJson

  const Endpoint: string := "https://practicum.yandex.ru/api/user_api/homework_statuses/"

  /** HOMEWORK_VERDICTS: the closed table of documented statuses. */
  const Verdicts: map<string, string> := map[
    "approved" := "Работа проверена: ревьюеру всё понравилось. Ура!",
    "reviewing" := "Работа взята на проверку ревьюером.",
    "rejected" := "Работа проверена: у ревьюера есть замечания."
  ]

  /** A status value that is a key of the verdict table. */
  predicate Known(status: Json) {
    status.JStr? && status.s in Verdicts
  }

  /** What can abort one polling cycle: a built-in Python error or one of the bot's own exceptions. */
  datatype Failure =
    | Builtin(error: PyError)
    | TheAnswerIsNot200(code: int)
    | UndocumentedStatus
  {
    /** `str(error)`, the text that follows the error prefix in the chat. */
    function Text(): string {
      match this
      case Builtin(e) => e.Text()
      case TheAnswerIsNot200(code) =>
        "Эндпоинт " + Endpoint + " недоступен. Код ответа API: " + IntToString(code)
      case UndocumentedStatus => "Ошибка пустое значение статуса"
    }
  }

  function Lift<T>(r: Result<T, PyError>): Result<T, Failure> {
    match r
    case Ok(v) => Ok(v)
    case Err(e) => Err(Builtin(e))
  }

  // ---------------------------------------------------------------- check_tokens

  /**
   * Reports whether the three credentials are set, clearing the flag once per
   * missing credential; `missing` holds the names the critical log lines
   * mention, once for each missing credential.
   */
  method CheckTokens(practicumToken: Option<string>, telegramToken: Option<string>, chatId: Option<string>)
    returns (ok: bool, missing: seq<string>)
    ensures ok <==> practicumToken.Some? && telegramToken.Some? && chatId.Some?
    ensures ok <==> missing == []
    ensures "PRACTICUM_TOKEN" in missing <==> practicumToken.None?
    ensures "TELEGRAM_TOKEN" in missing <==> telegramToken.None?
    ensures "CHAT_ID" in missing <==> chatId.None?
    ensures |missing| == (if practicumToken.None? then 1 else 0) + (if telegramToken.None? then 1 else 0)
                         + (if chatId.None? then 1 else 0)
  {
    ok := true;
    missing := [];
    if practicumToken.None? {
      ok := false;
      missing := missing + ["PRACTICUM_TOKEN"];
    }
    if telegramToken.None? {
      ok := false;
      missing := missing + ["TELEGRAM_TOKEN"];
    }
    if chatId.None? {
      ok := false;
      missing := missing + ["CHAT_ID"];
    }
  }

  // ---------------------------------------------------------------- get_api_answer

  /**
   * What one GET of the endpoint came to: a decoded body, a status code other
   * than 200, or a transport or decoding error that the request function logs
   * and swallows.
   */
  datatype FetchOutcome = Answer(body: Json) | Non200(code: ErrorCode) | Swallowed

  /** An HTTP status code that the request function treats as an error. */
  type ErrorCode = c: int | c != 200 witness 404

  /** The request function: returns the body, raises on a code other than 200, returns None otherwise. */
  function GetApiAnswer(outcome: FetchOutcome): (r: Result<Json, Failure>)
    ensures r.Err? <==> outcome.Non200?
    ensures r.Err? ==> r.error == TheAnswerIsNot200(outcome.code)
    ensures r.Ok? ==> r.value == (if outcome.Answer? then outcome.body else JNull)
  {
    match outcome
    case Answer(body) => Ok(body)
    case Non200(code) => Err(TheAnswerIsNot200(code))
    case Swallowed => Ok(JNull)
  }

  // ---------------------------------------------------------------- check_response

  /** The response is an object whose `homeworks` is a non-empty list that starts with an object. */
  predicate HasFirstRecord(response: Json) {
    response.JObj? && "homeworks" in response.fields
    && response.fields["homeworks"].JList?
    && |response.fields["homeworks"].items| > 0
    && response.fields["homeworks"].items[0].JObj?
  }

  function FirstRecord(response: Json): map<string, Json>
    requires HasFirstRecord(response)
  {
    response.fields["homeworks"].items[0].fields
  }

  /**
   * check_response: `response["homeworks"][0]`, whose `status` is then looked up
   * in the verdict table. An unknown status is only logged; a status that
   * cannot be a dictionary key makes that lookup raise.
   */
  function CheckResponse(response: Json): (r: Result<map<string, Json>, Failure>)
    ensures r.Ok? <==> HasFirstRecord(response) && Hashable(Get(FirstRecord(response), "status"))
    ensures r.Ok? ==> r.value == FirstRecord(response)
    ensures HasFirstRecord(response) && Get(FirstRecord(response), "status").JStr? ==> r == Ok(FirstRecord(response))
    ensures response.JObj? && "homeworks" !in response.fields ==> r == Err(Builtin(KeyError(JStr("homeworks"))))
    ensures response.JObj? && "homeworks" in response.fields && response.fields["homeworks"] == JList([])
            ==> r == Err(Builtin(IndexError("list index out of range")))
    ensures response == JNull ==> r == Err(Builtin(TypeError("'NoneType' object is not subscriptable")))
  {
    var homeworks :- Lift(Subscript(response, Name("homeworks")));
    var first :- Lift(Subscript(homeworks, Index(0)));
    if !first.JObj? then Err(Builtin(NoGet(first)))
    else
      var status := Get(first.fields, "status");
      if !Hashable(status) then Err(Builtin(TypeError("unhashable type: '" + TypeName(status) + "'")))
      else Ok(first.fields)
  }

  // ---------------------------------------------------------------- parse_status

  function StatusMessage(name: string, verdict: string): string {
    "Изменился статус проверки работы \"" + name + "\". " + verdict
  }

  /** parse_status: the chat text for a record, or the exception the lookup raises. */
  function ParseStatus(homework: map<string, Json>): (r: Result<string, Failure>)
    ensures r == Err(UndocumentedStatus) <==> Get(homework, "status") == JNull
    ensures r.Ok? <==> Known(Get(homework, "status"))
    ensures r.Ok? ==> r.value == "Изменился статус проверки работы \"" + Str(Get(homework, "homework_name"))
                                 + "\". " + Verdicts[Get(homework, "status").s]
    ensures Get(homework, "status") != JNull && Hashable(Get(homework, "status")) && !Known(Get(homework, "status"))
            ==> r == Err(Builtin(KeyError(Get(homework, "status"))))
  {
    var status := Get(homework, "status");
    var name := Get(homework, "homework_name");
    if status == JNull then Err(UndocumentedStatus)
    else if !Hashable(status) then Err(Builtin(TypeError("unhashable type: '" + TypeName(status) + "'")))
    else if Known(status) then Ok(StatusMessage(Str(name), Verdicts[status.s]))
    else Err(Builtin(KeyError(status)))
  }

  /** Every documented status, with a string name, gives its own verdict's text. */
  lemma ParseStatusForEveryVerdict(name: string)
    ensures forall k :: k in Verdicts ==>
      ParseStatus(map["status" := JStr(k), "homework_name" := JStr(name)])
        == Ok("Изменился статус проверки работы \"" + name + "\". " + Verdicts[k])
  {
  }
}
