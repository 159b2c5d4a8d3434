/**
 * The body of the bot's `while True` loop: fetch with the fixed start time as
 * cursor, pick the first record, send a status message when the status
 * differs from the last one sent, and on any exception send one error
 * message, but only while the one-shot `errors` flag is still set.
 */
module Polling {
  import opened Wrappers
  import opened PyJson
  import opened Homework

  const ErrorPrefix: string := "Сбой в работе программы: "

  function ErrorMessage(f: Failure): string {
    ErrorPrefix + f.Text()
  }

  function StartMessage(startedAt: string): string {
    "Я начал свою работу: " + startedAt
  }

  predicate IsErrorMessage(m: string) {
    |ErrorPrefix| <= |m| && m[..|ErrorPrefix|] == ErrorPrefix
  }

  /** The number of error messages in a chat log. */
  function ErrorCount(sent: seq<string>): nat {
    if sent == [] then 0
    else ErrorCount(sent[..|sent| - 1]) + (if IsErrorMessage(sent[|sent| - 1]) then 1 else 0)
  }

  /** The loop's variables `tmp_status` and `errors`, and the messages sent so far. */
  datatype LoopState = LoopState(tmpStatus: Json, errors: bool, sent: seq<string>)

  /** The state on entry to the loop: the start message is out, `tmp_status` is "reviewing". */
  function Init(startedAt: string): (r: LoopState)
    ensures Known(r.tmpStatus) && r.tmpStatus == JStr("reviewing")
    ensures r.errors
    ensures r.sent == [StartMessage(startedAt)] && ErrorCount(r.sent) == 0
  {
    assert StartMessage(startedAt)[0] == 'Я' != ErrorPrefix[0];
    assert [StartMessage(startedAt)][..0] == [];
    LoopState(JStr("reviewing"), true, [StartMessage(startedAt)])
  }

  /** What the `try` block of one cycle comes to. */
  datatype CycleOutcome = Quiet | Changed(message: string, status: Json) | Raised(failure: Failure)

  /** The `try` block of one cycle, given the last status sent and what the API answered. */
  function Cycle(tmpStatus: Json, answer: FetchOutcome): (r: CycleOutcome)
    ensures r.Changed? ==> Known(r.status) && r.status != tmpStatus
    ensures r.Changed? ==> Record(answer).Some? && r.status == Get(Record(answer).value, "status")
                           && r.message == StatusMessage(Str(Get(Record(answer).value, "homework_name")), Verdicts[r.status.s])
    ensures r.Quiet? ==> Record(answer).Some?
  {
    match GetApiAnswer(answer)
    case Err(f) => Raised(f)
    case Ok(response) =>
      match CheckResponse(response)
      case Err(f) => Raised(f)
      case Ok(homework) =>
        if |homework| == 0 then Quiet
        else
          match Lift(Subscript(JObj(homework), Name("status")))
          case Err(f) => Raised(f)
          case Ok(status) =>
            if tmpStatus == status then Quiet
            else
              match ParseStatus(homework)
              case Err(f) => Raised(f)
              case Ok(m) => Changed(m, status)
  }

  /** One pass of the loop: the `try` block, and the `except` block when it raised. */
  function Next(s: LoopState, answer: FetchOutcome): (r: LoopState)
    ensures Known(s.tmpStatus) ==> Known(r.tmpStatus)
    ensures !s.errors ==> !r.errors
    ensures |s.sent| <= |r.sent| <= |s.sent| + 1
    ensures r.sent[..|s.sent|] == s.sent
  {
    match Cycle(s.tmpStatus, answer)
    case Quiet => s
    case Changed(m, status) => s.(tmpStatus := status, sent := s.sent + [m])
    case Raised(f) =>
      if s.errors then s.(errors := false, sent := s.sent + [ErrorMessage(f)]) else s
  }

  /** The state after the loop has seen the given answers, in order. */
  function Run(s: LoopState, answers: seq<FetchOutcome>): (r: LoopState)
    ensures !s.errors ==> !r.errors
    ensures |s.sent| <= |r.sent| <= |s.sent| + |answers|
    ensures r.sent[..|s.sent|] == s.sent
    decreases |answers|
  {
    if answers == [] then s
    else Next(Run(s, answers[..|answers| - 1]), answers[|answers| - 1])
  }

  // ---------------------------------------------------------------- reference definitions

  /** The record check_response picks out of an answer, when neither the request nor the check raised. */
  function Record(answer: FetchOutcome): Option<map<string, Json>> {
    match GetApiAnswer(answer)
    case Err(_) => None
    case Ok(response) =>
      match CheckResponse(response)
      case Err(_) => None
      case Ok(homework) => Some(homework)
  }

  /** A cycle on this answer raises: no record, or a non-empty record without a documented status. */
  predicate Fails(answer: FetchOutcome) {
    match Record(answer)
    case None => true
    case Some(h) => |h| > 0 && !Known(Get(h, "status"))
  }

  predicate AnyFails(answers: seq<FetchOutcome>) {
    exists i :: 0 <= i < |answers| && Fails(answers[i])
  }

  // ---------------------------------------------------------------- one cycle

  /**
   * Whether a cycle raises does not depend on the last status sent, and a
   * status message goes out exactly when the record is non-empty and its
   * status differs from the last one sent; the new status is then that status.
   */
  lemma CycleMeaning(tmpStatus: Json, answer: FetchOutcome)
    requires Known(tmpStatus)
    ensures Cycle(tmpStatus, answer).Raised? <==> Fails(answer)
    ensures Cycle(tmpStatus, answer).Changed? <==>
      Record(answer).Some? && |Record(answer).value| > 0
      && Known(Get(Record(answer).value, "status"))
      && Get(Record(answer).value, "status") != tmpStatus
    ensures Cycle(tmpStatus, answer).Changed? ==>
      Cycle(tmpStatus, answer).status == Get(Record(answer).value, "status")
      && Cycle(tmpStatus, answer).message == ParseStatus(Record(answer).value).value
  {
  }

  /**
   * A cycle that does not raise leaves `errors` alone and sends a status
   * message exactly when the record is non-empty and its status differs from
   * `tmp_status`; after sending, `tmp_status` is that status. Otherwise
   * nothing changes.
   */
  lemma SuccessfulStep(s: LoopState, answer: FetchOutcome)
    requires Known(s.tmpStatus) && !Fails(answer)
    ensures Record(answer).Some?
    ensures Next(s, answer).errors == s.errors
    ensures |Next(s, answer).sent| == |s.sent| + 1 <==>
      |Record(answer).value| > 0 && Get(Record(answer).value, "status") != s.tmpStatus
    ensures |Next(s, answer).sent| == |s.sent| + 1 ==>
      Next(s, answer).sent == s.sent + [ParseStatus(Record(answer).value).value]
      && Next(s, answer).tmpStatus == Get(Record(answer).value, "status")
    ensures |Next(s, answer).sent| == |s.sent| ==> Next(s, answer) == s
  {
  }

  /**
   * A cycle that raises leaves `tmp_status` alone, clears `errors`, and sends
   * an error message only when `errors` was still set.
   */
  lemma FailedStep(s: LoopState, answer: FetchOutcome)
    requires Known(s.tmpStatus) && Fails(answer)
    ensures Next(s, answer).tmpStatus == s.tmpStatus && !Next(s, answer).errors
    ensures s.errors ==> |Next(s, answer).sent| == |s.sent| + 1 && Next(s, answer).sent[..|s.sent|] == s.sent
                         && IsErrorMessage(Next(s, answer).sent[|s.sent|])
    ensures !s.errors ==> Next(s, answer).sent == s.sent
  {
    if s.errors {
      var f := Cycle(s.tmpStatus, answer).failure;
      assert Next(s, answer).sent == s.sent + [ErrorMessage(f)];
      assert IsErrorMessage(ErrorMessage(f));
    }
  }

  /**
   * A status code other than 200 raises TheAnswerIsNot200Error, whose text,
   * with the endpoint and the code, follows the error prefix.
   */
  lemma Non200Failure(s: LoopState, code: ErrorCode)
    requires Known(s.tmpStatus) && s.errors
    ensures Next(s, Non200(code)) == s.(errors := false, sent := s.sent
      + [ErrorPrefix + "Эндпоинт " + Endpoint + " недоступен. Код ответа API: " + IntToString(code)])
  {
    var f := TheAnswerIsNot200(code);
    assert Cycle(s.tmpStatus, Non200(code)) == Raised(f);
    calc {
      ErrorMessage(f);
      ErrorPrefix + ("Эндпоинт " + Endpoint + " недоступен. Код ответа API: " + IntToString(code));
      ErrorPrefix + "Эндпоинт " + Endpoint + " недоступен. Код ответа API: " + IntToString(code);
    }
  }

  /**
   * A request error that was swallowed returns None, so check_response raises
   * TypeError, and that is the text after the error prefix.
   */
  lemma SwallowedFailure(s: LoopState)
    requires Known(s.tmpStatus) && s.errors
    ensures Next(s, Swallowed) == s.(errors := false, sent := s.sent
      + [ErrorPrefix + "'NoneType' object is not subscriptable"])
  {
    assert Cycle(s.tmpStatus, Swallowed) == Raised(Builtin(TypeError("'NoneType' object is not subscriptable")));
  }

  /** The first record of an answer holding the given fields. */
  function RecordOf(fields: map<string, Json>): FetchOutcome {
    Answer(JObj(map["homeworks" := JList([JObj(fields)])]))
  }

  /**
   * A string status outside the verdict table passes check_response, and the
   * pass then raises KeyError on that status at the table lookup; the error
   * message quotes the status. Once `errors` is cleared, the same record is
   * dropped without a word.
   */
  lemma UnknownStatusReported(s: LoopState, fields: map<string, Json>, k: string)
    requires Known(s.tmpStatus) && "status" in fields && fields["status"] == JStr(k) && k !in Verdicts
    ensures s.errors ==> Next(s, RecordOf(fields)) == s.(errors := false, sent := s.sent + [ErrorPrefix + "'" + k + "'"])
    ensures !s.errors ==> Next(s, RecordOf(fields)) == s
  {
    assert Record(RecordOf(fields)) == Some(fields);
    assert ParseStatus(fields) == Err(Builtin(KeyError(JStr(k))));
    assert Cycle(s.tmpStatus, RecordOf(fields)) == Raised(Builtin(KeyError(JStr(k))));
    assert ErrorMessage(Builtin(KeyError(JStr(k)))) == ErrorPrefix + "'" + k + "'";
  }

  /**
   * A non-empty record without a `status` key passes check_response (its
   * `.get` gives None), and the loop's `homework["status"]` then raises
   * KeyError('status').
   */
  lemma MissingStatusReported(s: LoopState, fields: map<string, Json>)
    requires Known(s.tmpStatus) && |fields| > 0 && "status" !in fields
    ensures s.errors ==> Next(s, RecordOf(fields)) == s.(errors := false, sent := s.sent + [ErrorPrefix + "'status'"])
    ensures !s.errors ==> Next(s, RecordOf(fields)) == s
  {
    assert Record(RecordOf(fields)) == Some(fields);
    assert Cycle(s.tmpStatus, RecordOf(fields)) == Raised(Builtin(KeyError(JStr("status"))));
    assert ErrorMessage(Builtin(KeyError(JStr("status")))) == ErrorPrefix + "'status'";
  }

  /**
   * An empty `homeworks` list, the usual answer when nothing changed since
   * the fixed cursor, makes check_response raise IndexError; the first such
   * pass spends the one error message.
   */
  lemma EmptyHomeworksReported(s: LoopState)
    requires Known(s.tmpStatus)
    ensures s.errors ==> Next(s, Answer(JObj(map["homeworks" := JList([])])))
                         == s.(errors := false, sent := s.sent + [ErrorPrefix + "list index out of range"])
    ensures !s.errors ==> Next(s, Answer(JObj(map["homeworks" := JList([])]))) == s
  {
    assert Cycle(s.tmpStatus, Answer(JObj(map["homeworks" := JList([])])))
      == Raised(Builtin(IndexError("list index out of range")));
  }

  /** Status and start messages never read as error messages. */
  lemma StatusMessageIsNoError(name: string, verdict: string, startedAt: string)
    ensures !IsErrorMessage(StatusMessage(name, verdict))
    ensures !IsErrorMessage(StartMessage(startedAt))
  {
    assert StatusMessage(name, verdict)[0] == 'И' != ErrorPrefix[0];
    assert StartMessage(startedAt)[0] == 'Я' != ErrorPrefix[0];
  }

  /** `errors` stays set through one pass exactly when that pass does not raise. */
  lemma NextErrorsFlag(s: LoopState, answer: FetchOutcome)
    requires Known(s.tmpStatus)
    ensures Next(s, answer).errors == (s.errors && !Fails(answer))
  {
    CycleMeaning(s.tmpStatus, answer);
  }

  /** One pass adds an error message exactly when it raises while `errors` is set. */
  lemma {:induction false} NextErrorCount(s: LoopState, answer: FetchOutcome)
    requires Known(s.tmpStatus)
    ensures ErrorCount(Next(s, answer).sent) == ErrorCount(s.sent) + (if s.errors && Fails(answer) then 1 else 0)
  {
    CycleMeaning(s.tmpStatus, answer);
    var t := Next(s, answer);
    match Cycle(s.tmpStatus, answer)
    case Quiet =>
    case Changed(m, status) =>
      var h := Record(answer).value;
      assert m == StatusMessage(Str(Get(h, "homework_name")), Verdicts[Get(h, "status").s]);
      StatusMessageIsNoError(Str(Get(h, "homework_name")), Verdicts[Get(h, "status").s], "");
      assert t.sent[..|t.sent| - 1] == s.sent;
    case Raised(f) =>
      if s.errors {
        assert t.sent[..|t.sent| - 1] == s.sent;
        assert IsErrorMessage(ErrorMessage(f));
      }
  }

  /** Replaying an answer right after it changes nothing: the bot is edge-triggered. */
  lemma NextIdempotent(s: LoopState, answer: FetchOutcome)
    requires Known(s.tmpStatus)
    ensures Next(Next(s, answer), answer) == Next(s, answer)
  {
  }

  /** With a fresh `tmp_status` of "reviewing", a first record still under review sends nothing. */
  lemma FirstReviewingIsSilent(startedAt: string, answer: FetchOutcome)
    requires Record(answer).Some? && Get(Record(answer).value, "status") == JStr("reviewing")
    ensures Next(Init(startedAt), answer) == Init(startedAt)
  {
  }

  function OneRecord(status: string, name: string): FetchOutcome {
    Answer(JObj(map["homeworks" := JList([JObj(map["status" := JStr(status), "homework_name" := JStr(name)])])]))
  }

  /**
   * A record under review and then the same record approved: since
   * `tmp_status` starts at "reviewing", only the approval is announced.
   */
  lemma ReviewingThenApproved(startedAt: string, name: string)
    ensures Run(Init(startedAt), [OneRecord("reviewing", name), OneRecord("approved", name)]).sent
      == [StartMessage(startedAt), StatusMessage(name, Verdicts["approved"])]
  {
    var a1, a2 := OneRecord("reviewing", name), OneRecord("approved", name);
    assert [a1, a2][..1] == [a1];
    assert [a1][..0] == [];
    FirstReviewingIsSilent(startedAt, a1);
    assert Run(Init(startedAt), [a1]) == Init(startedAt);
    var h := map["status" := JStr("approved"), "homework_name" := JStr(name)];
    assert Record(a2) == Some(h);
    CycleMeaning(JStr("reviewing"), a2);
    assert ParseStatus(h) == Ok(StatusMessage(name, Verdicts["approved"]));
  }

  // ---------------------------------------------------------------- many cycles

  function Repeat(answer: FetchOutcome, n: nat): (r: seq<FetchOutcome>)
    ensures |r| == n && forall i :: 0 <= i < n ==> r[i] == answer
  {
    if n == 0 then [] else Repeat(answer, n - 1) + [answer]
  }

  lemma {:induction false} RunKeepsKnown(s: LoopState, answers: seq<FetchOutcome>)
    requires Known(s.tmpStatus)
    ensures Known(Run(s, answers).tmpStatus)
    decreases |answers|
  {
    if answers != [] {
      RunKeepsKnown(s, answers[..|answers| - 1]);
    }
  }

  /**
   * Replaying one answer N >= 1 times ends where one pass does: at most the
   * one message of the first transition, never N.
   */
  lemma {:induction false} ReplayIdempotent(s: LoopState, answer: FetchOutcome, n: nat)
    requires Known(s.tmpStatus) && n >= 1
    ensures Run(s, Repeat(answer, n)) == Next(s, answer)
    decreases n
  {
    var answers := Repeat(answer, n);
    assert answers[..n - 1] == Repeat(answer, n - 1);
    if n > 1 {
      ReplayIdempotent(s, answer, n - 1);
      NextIdempotent(s, answer);
    } else {
      assert Repeat(answer, 0) == [];
    }
  }

  /** Some answer of a non-empty sequence fails iff one before the last does or the last does. */
  lemma AnyFailsLast(answers: seq<FetchOutcome>)
    requires answers != []
    ensures AnyFails(answers) <==> AnyFails(answers[..|answers| - 1]) || Fails(answers[|answers| - 1])
  {
    var init := answers[..|answers| - 1];
    if AnyFails(init) {
      var i :| 0 <= i < |init| && Fails(init[i]);
      assert answers[i] == init[i];
    }
    if AnyFails(answers) && !Fails(answers[|answers| - 1]) {
      var i :| 0 <= i < |answers| && Fails(answers[i]);
      assert init[i] == answers[i];
    }
  }

  /** `errors` is only ever cleared: it is still set after a run exactly when no cycle raised. */
  lemma {:induction false} RunErrorsFlag(s: LoopState, answers: seq<FetchOutcome>)
    requires Known(s.tmpStatus)
    ensures Run(s, answers).errors == (s.errors && !AnyFails(answers))
    decreases |answers|
  {
    if answers != [] {
      var init := answers[..|answers| - 1];
      RunErrorsFlag(s, init);
      RunKeepsKnown(s, init);
      NextErrorsFlag(Run(s, init), answers[|answers| - 1]);
      AnyFailsLast(answers);
    }
  }

  /**
   * Error damping: over any run, the error messages sent grow by one exactly
   * when `errors` was set and some cycle raised, and by none otherwise.
   */
  lemma {:induction false} ErrorDamping(s: LoopState, answers: seq<FetchOutcome>)
    requires Known(s.tmpStatus)
    ensures ErrorCount(Run(s, answers).sent) == ErrorCount(s.sent) + (if s.errors && AnyFails(answers) then 1 else 0)
    decreases |answers|
  {
    if answers != [] {
      var init := answers[..|answers| - 1];
      var last := answers[|answers| - 1];
      var t := Run(s, init);
      assert Run(s, answers) == Next(t, last);
      ErrorDamping(s, init);
      RunErrorsFlag(s, init);
      RunKeepsKnown(s, init);
      NextErrorCount(t, last);
      AnyFailsLast(answers);
    }
  }

  /** From start-up, the whole process sends one error message if some cycle raised, and none otherwise. */
  lemma AtMostOneErrorMessage(startedAt: string, answers: seq<FetchOutcome>)
    ensures ErrorCount(Run(Init(startedAt), answers).sent) == (if AnyFails(answers) then 1 else 0)
  {
    StatusMessageIsNoError("", "", startedAt);
    assert [StartMessage(startedAt)][..0] == [];
    ErrorDamping(Init(startedAt), answers);
  }

  // ---------------------------------------------------------------- the bot object

  /** The loop's state in `main`, with the cursor fixed at start-up. */
  class Bot {
    /** `timestamp`, the `from_date` of every request; assigned once, at start-up. */
    const timestamp: int
    var tmpStatus: Json
    var errors: bool
    /** The messages handed to the chat, in order. */
    var sent: seq<string>
    /** The `from_date` of every request made so far. */
    var requests: seq<int>

    ghost predicate Valid()
      reads this
    {
      Known(tmpStatus) && forall i :: 0 <= i < |requests| ==> requests[i] == timestamp
    }

    function State(): LoopState
      reads this
    {
      LoopState(tmpStatus, errors, sent)
    }

    /** `main` after the credential check: cursor taken, start message sent, loop variables set. */
    constructor (timestamp: int, startedAt: string)
      ensures Valid() && State() == Init(startedAt)
      ensures this.timestamp == timestamp && requests == []
    {
      this.timestamp := timestamp;
      sent := [StartMessage(startedAt)];
      tmpStatus := JStr("reviewing");
      errors := true;
      requests := [];
    }

    /** One pass of the loop, with `answer` what the API returned for this pass's request. */
    method Step(answer: FetchOutcome)
      requires Valid()
      modifies this
      ensures Valid()
      ensures State() == Next(old(State()), answer)
      ensures requests == old(requests) + [timestamp]
    {
      requests := requests + [timestamp];
      var failure: Option<Failure> := None;
      var response := GetApiAnswer(answer);
      if response.Err? {
        failure := Some(response.error);
      } else {
        var homework := CheckResponse(response.value);
        if homework.Err? {
          failure := Some(homework.error);
        } else if |homework.value| > 0 {
          var status := Lift(Subscript(JObj(homework.value), Name("status")));
          if status.Err? {
            failure := Some(status.error);
          } else if tmpStatus != status.value {
            var message := ParseStatus(homework.value);
            if message.Err? {
              failure := Some(message.error);
            } else {
              sent := sent + [message.value];
              tmpStatus := status.value;
            }
          }
        }
      }
      if failure.Some? && errors {
        errors := false;
        sent := sent + [ErrorMessage(failure.value)];
      }
    }

    /** The `while True` loop, over the answers of its first |answers| passes. */
    method Poll(answers: seq<FetchOutcome>)
      requires Valid()
      modifies this
      ensures Valid()
      ensures State() == Run(old(State()), answers)
      ensures |requests| == |old(requests)| + |answers|
      ensures forall i :: 0 <= i < |requests| ==> requests[i] == timestamp
      ensures ErrorCount(sent) <= ErrorCount(old(sent)) + 1
    {
      var i := 0;
      while i < |answers|
        invariant 0 <= i <= |answers|
        invariant Valid()
        invariant State() == Run(old(State()), answers[..i])
        invariant |requests| == |old(requests)| + i
      {
        Step(answers[i]);
        assert answers[..i + 1][..i] == answers[..i];
        i := i + 1;
      }
      assert answers[..i] == answers;
      ErrorDamping(old(State()), answers);
    }
  }

  /** `main` up to the loop: stop when a credential is missing, otherwise a bot in its start state. */
  method Launch(practicumToken: Option<string>, telegramToken: Option<string>, chatId: Option<string>,
                timestamp: int, startedAt: string) returns (bot: Bot?)
    ensures bot != null <==> practicumToken.Some? && telegramToken.Some? && chatId.Some?
    ensures bot != null ==> fresh(bot) && bot.Valid() && bot.State() == Init(startedAt)
                            && bot.timestamp == timestamp && bot.requests == []
  {
    var ok, _ := CheckTokens(practicumToken, telegramToken, chatId);
    if !ok {
      return null;
    }
    bot := new Bot(timestamp, startedAt);
  }
}
