/** The bot's main loop: each iteration fetches the answer, validates it,
    translates the first submission, notifies, and moves the cursor; errors
    are caught at the loop boundary, with fetch failures reported only once
    in a row. */
module PollLoop {
  import opened JsonValue
  import opened Homework

  /** What `get_api_answer` gave back: the decoded body, or an
      `ApiAnswerException` (every failure of the request, of the status
      code or of the decoding ends as this one exception). */
  datatype Fetch = Fetched(response: Json) | FetchFailed

  /** A message handed to `send_message`; sending never fails from the
      loop's point of view. `Text` is a status notification, `ErrorReport(e)`
      the text "Сбой в работе программы: " followed by the exception's own
      message, and `StaleResponse(j)` the previously fetched answer object
      itself, which is what a fetch failure sends. */
  datatype Message = Text(text: string) | ErrorReport(error: Exception) | StaleResponse(response: Json)

  /** The loop's locals: the cursor, the one-shot flag `SEND_ERROR_API_MSG`,
      the messages sent so far, and the last `api_response` (None before the
      first successful fetch, when the name is still unbound). */
  datatype LoopState = LoopState(
    timestamp: Json,
    sendErrorApiMsg: bool,
    sent: seq<Message>,
    apiResponse: Option<Json>)

  /** The flag is only ever disarmed after a stale answer was sent, so a
      disarmed flag means an answer has been fetched. */
  predicate Consistent(s: LoopState) {
    !s.sendErrorApiMsg ==> s.apiResponse.Some?
  }

  /** The state right after start-up: the cursor is the start time, the flag is armed. */
  function Initial(now: int): (s: LoopState)
    ensures Consistent(s) && s.sent == []
    ensures s.sendErrorApiMsg && s.timestamp == JInt(now) && s.apiResponse.None?
  {
    LoopState(JInt(now), true, [], None)
  }

  /** The two `except` clauses. `ApiAnswerException` (and only it: its
      parent `AssistantException` falls to the generic clause) sends the
      stale answer object if the flag is armed and disarms it; reading the
      unbound answer crashes the process (None). Every other exception is
      reported every time. */
  function Catch(s: LoopState, e: Exception): (r: Option<LoopState>)
    ensures r.None? <==> (e.ApiAnswer? && s.sendErrorApiMsg && s.apiResponse.None?)
    ensures r.Some? ==> r.value.timestamp == s.timestamp && r.value.apiResponse == s.apiResponse
    ensures e.ApiAnswer? && r.Some? ==> !r.value.sendErrorApiMsg
    ensures e.ApiAnswer? && r.Some? ==>
      r.value.sent == s.sent + (if s.sendErrorApiMsg then [StaleResponse(s.apiResponse.value)] else [])
    ensures !e.ApiAnswer? ==>
      r.Some? && r.value.sendErrorApiMsg == s.sendErrorApiMsg && r.value.sent == s.sent + [ErrorReport(e)]
  {
    if e.ApiAnswer? then
      if !s.sendErrorApiMsg then Some(s)
      else if s.apiResponse.None? then None
      else Some(s.(sent := s.sent + [StaleResponse(s.apiResponse.value)], sendErrorApiMsg := false))
    else
      Some(s.(sent := s.sent + [ErrorReport(e)]))
  }

  /** One iteration of the loop (without the sleep); None when the process dies. */
  function Next(s: LoopState, f: Fetch): (r: Option<LoopState>)
    ensures f.Fetched? ==> r.Some? && r.value.apiResponse == Some(f.response)
    ensures f.FetchFailed? ==> r == Catch(s, ApiAnswer)
    ensures r.Some? ==> |s.sent| <= |r.value.sent| <= |s.sent| + 1 && r.value.sent[..|s.sent|] == s.sent
  {
    match f
    case FetchFailed => Catch(s, ApiAnswer)
    case Fetched(response) =>
      var s1 := s.(apiResponse := Some(response));
      if !Truthy(response) then Some(s1)
      else
        var s2 := s1.(sendErrorApiMsg := true);
        match CheckResponse(response)
        case Raise(e) => Catch(s2, e)
        case Return(check) =>
          if !check then Some(s2)
          else
            match ParseStatus(FirstRecord(response))
            case Raise(e) => Catch(s2, e)
            case Return(status) =>
              var s3 := if status != "" then s2.(sent := s2.sent + [Text(status)]) else s2;
              Some(s3.(timestamp := Get(response.fields, "current_date")))
  }

  /** The iteration delivered a notification: a truthy answer passed the
      check and its first record translated. */
  predicate Delivered(f: Fetch) {
    && f.Fetched?
    && Truthy(f.response)
    && CheckResponse(f.response) == Return(true)
    && ParseStatus(FirstRecord(f.response)).Return?
  }

  /** Iterations over a sequence of fetch outcomes, stopping at a crash. */
  function Run(s: LoopState, fs: seq<Fetch>): (r: Option<LoopState>)
    ensures r.Some? ==> |s.sent| <= |r.value.sent| <= |s.sent| + |fs| && r.value.sent[..|s.sent|] == s.sent
    ensures (forall i :: 0 <= i < |fs| ==> fs[i].Fetched?) ==> r.Some?
    decreases |fs|
  {
    if fs == [] then Some(s)
    else
      match Next(s, fs[0])
      case None => None
      case Some(t) => Run(t, fs[1..])
  }

  /** `n` fetch failures in a row. */
  function Failures(n: nat): (fs: seq<Fetch>)
    ensures |fs| == n && forall i :: 0 <= i < n ==> fs[i] == FetchFailed
  {
    seq(n, _ => FetchFailed)
  }

  /** In a consistent state the process dies exactly on a fetch failure
      before any answer was ever fetched (the flag is then necessarily
      armed), and every iteration keeps the state consistent. */
  lemma NextCrashesOnlyUnbound(s: LoopState, f: Fetch)
    requires Consistent(s)
    ensures Next(s, f).None? <==> (f.FetchFailed? && s.apiResponse.None?)
    ensures Next(s, f).Some? ==> Consistent(Next(s, f).value)
  {
  }

  /** The cursor moves only when a notification was delivered, and then to
      the answer's `current_date`; an empty `homeworks`, a falsy answer and
      every exception leave it where it was. */
  lemma CursorMovesOnlyOnDelivery(s: LoopState, f: Fetch)
    requires Next(s, f).Some?
    ensures Next(s, f).value.timestamp
         == if Delivered(f) then Get(f.response.fields, "current_date") else s.timestamp
    ensures Delivered(f) ==> Next(s, f).value.timestamp != JNull
  {
  }

  /** A fetch failure with the flag armed sends the previous answer object
      once and disarms the flag; with the flag disarmed it changes nothing. */
  lemma FetchFailureSuppressed(s: LoopState)
    requires s.apiResponse.Some?
    ensures s.sendErrorApiMsg ==>
      Next(s, FetchFailed) == Some(s.(sent := s.sent + [StaleResponse(s.apiResponse.value)], sendErrorApiMsg := false))
    ensures !s.sendErrorApiMsg ==> Next(s, FetchFailed) == Some(s)
  {
  }

  /** A falsy answer is recorded as the last answer and nothing else
      happens: the flag is not re-armed, nothing is sent, the cursor stays. */
  lemma FalsyAnswerSkipped(s: LoopState, response: Json)
    requires !Truthy(response)
    ensures Next(s, Fetched(response)) == Some(s.(apiResponse := Some(response)))
  {
  }

  /** Any truthy answer re-arms the flag, whatever happens after. */
  lemma TruthyAnswerRearms(s: LoopState, response: Json)
    requires Truthy(response)
    ensures Next(s, Fetched(response)).Some?
    ensures Next(s, Fetched(response)).value.sendErrorApiMsg
    ensures Next(s, Fetched(response)).value.apiResponse == Some(response)
  {
  }

  /** An exception raised while validating or translating a truthy answer
      (a `TypeError`, a `KeyError`, or an `AssistantException` such as an
      unknown status) is reported on every iteration, whatever the flag was. */
  lemma OtherErrorsAlwaysReported(s: LoopState, response: Json, e: Exception)
    requires Truthy(response)
    requires CheckResponse(response) == Raise(e)
          || (CheckResponse(response) == Return(true) && ParseStatus(FirstRecord(response)) == Raise(e))
    ensures Next(s, Fetched(response))
      == Some(s.(apiResponse := Some(response), sendErrorApiMsg := true, sent := s.sent + [ErrorReport(e)]))
  {
  }

  /** A delivered pass re-arms the flag, sends exactly the translated
      status of the first record, and moves the cursor to `current_date`. */
  lemma DeliveredSends(s: LoopState, f: Fetch)
    requires Delivered(f)
    ensures Next(s, f) == Some(s.(
      apiResponse := Some(f.response),
      sendErrorApiMsg := true,
      sent := s.sent + [Text(ParseStatus(FirstRecord(f.response)).value)],
      timestamp := Get(f.response.fields, "current_date")))
  {
  }

  /** An answer whose `homeworks` list is empty re-arms the flag and is
      recorded, but sends nothing and leaves the cursor where it was. */
  lemma NoUpdatesSendsNothing(s: LoopState, r: Json)
    requires NoUpdates(r)
    ensures Next(s, Fetched(r)) == Some(s.(apiResponse := Some(r), sendErrorApiMsg := true))
  {
    assert "homeworks" in r.fields;
  }

  /** A run of consecutive fetch failures starting with the flag armed sends
      exactly one message, however long it is. */
  lemma {:induction false} ConsecutiveFailuresSendOnce(s: LoopState, n: nat)
    requires n >= 1
    requires s.sendErrorApiMsg && s.apiResponse.Some?
    ensures Run(s, Failures(n))
         == Some(s.(sent := s.sent + [StaleResponse(s.apiResponse.value)], sendErrorApiMsg := false))
  {
    var t := s.(sent := s.sent + [StaleResponse(s.apiResponse.value)], sendErrorApiMsg := false);
    assert Next(s, FetchFailed) == Some(t);
    assert Failures(n)[1..] == Failures(n - 1);
    FailuresChangeNothing(t, n - 1);
  }

  /** With the flag disarmed, fetch failures change nothing. */
  lemma {:induction false} FailuresChangeNothing(s: LoopState, n: nat)
    requires !s.sendErrorApiMsg
    ensures Run(s, Failures(n)) == Some(s)
    decreases n
  {
    if n > 0 {
      assert Next(s, FetchFailed) == Some(s);
      assert Failures(n)[1..] == Failures(n - 1);
      FailuresChangeNothing(s, n - 1);
    }
  }

  /** Running two sequences of outcomes one after the other is running
      their concatenation: a crash in the first ends the whole run. */
  lemma {:induction false} RunConcat(s: LoopState, fs1: seq<Fetch>, fs2: seq<Fetch>)
    ensures Run(s, fs1 + fs2) == match Run(s, fs1) case None => None case Some(t) => Run(t, fs2)
    decreases |fs1|
  {
    if fs1 == [] {
      assert fs1 + fs2 == fs2;
    } else {
      assert (fs1 + fs2)[0] == fs1[0];
      assert (fs1 + fs2)[1..] == fs1[1..] + fs2;
      match Next(s, fs1[0])
      case None =>
      case Some(t) => RunConcat(t, fs1[1..], fs2);
    }
  }

  /** An answer with no submissions (the key is present, the list empty). */
  function EmptyAnswer(date: int): Json {
    JObj(map["homeworks" := JList([]), "current_date" := JInt(date)])
  }

  /** An empty submission list sends nothing and, unlike a delivered
      notification, leaves the cursor where it was. */
  lemma EmptyAnswerKeepsCursor(s: LoopState)
    ensures Next(s, Fetched(EmptyAnswer(1000198500)))
         == Some(s.(apiResponse := Some(EmptyAnswer(1000198500)), sendErrorApiMsg := true))
  {
    var r := EmptyAnswer(1000198500);
    assert Truthy(r) by { assert "homeworks" in r.fields; }
    assert NoUpdates(r);
  }

  /** An approved submission "hw1" is announced with the approved verdict
      and the cursor moves to the answer's date. */
  lemma ApprovedAnnounced(s: LoopState)
    ensures var r := JObj(map[
              "homeworks" := JList([JObj(map["homework_name" := JStr("hw1"), "status" := JStr("approved")])]),
              "current_date" := JInt(1000198991)]);
            Next(s, Fetched(r)) == Some(s.(
              apiResponse := Some(r),
              sendErrorApiMsg := true,
              sent := s.sent + [Text("Изменился статус проверки работы \"" + "hw1" + "\". "
                                     + "Работа проверена: ревьюеру всё понравилось. Ура!")],
              timestamp := JInt(1000198991)))
  {
    var h := map["homework_name" := JStr("hw1"), "status" := JStr("approved")];
    var r := JObj(map["homeworks" := JList([JObj(h)]), "current_date" := JInt(1000198991)]);
    assert Truthy(r) by { assert "homeworks" in r.fields; }
    assert HasUpdate(r);
    assert FirstRecord(r) == h;
    KnownStatusMessage(h, "hw1", "approved");
    assert HomeworkVerdicts["approved"] == "Работа проверена: ревьюеру всё понравилось. Ура!";
    assert Get(r.fields, "current_date") == JInt(1000198991);
  }

  /** Two failures send one message; an answer in between re-arms the flag,
      so a third failure sends a second message, and that message is the
      object of the most recent answer. */
  lemma SuppressionRearmed(s: LoopState, date: int)
    requires s.sendErrorApiMsg && s.apiResponse.Some?
    ensures Run(s, [FetchFailed, FetchFailed, Fetched(EmptyAnswer(date)), FetchFailed])
         == Some(s.(
              sent := s.sent + [StaleResponse(s.apiResponse.value), StaleResponse(EmptyAnswer(date))],
              sendErrorApiMsg := false,
              apiResponse := Some(EmptyAnswer(date))))
  {
    var r := EmptyAnswer(date);
    assert Truthy(r) by { assert "homeworks" in r.fields; }
    assert NoUpdates(r);
    var fs := [FetchFailed, FetchFailed, Fetched(r), FetchFailed];
    assert fs[1..] == [FetchFailed, Fetched(r), FetchFailed];
    assert fs[1..][1..] == [Fetched(r), FetchFailed];
    assert fs[1..][1..][1..] == [FetchFailed];
    var t1 := s.(sent := s.sent + [StaleResponse(s.apiResponse.value)], sendErrorApiMsg := false);
    assert Next(s, FetchFailed) == Some(t1);
    assert Next(t1, FetchFailed) == Some(t1);
    var t2 := t1.(apiResponse := Some(r), sendErrorApiMsg := true);
    assert Next(t1, Fetched(r)) == Some(t2);
    var t3 := t2.(sent := t2.sent + [StaleResponse(r)], sendErrorApiMsg := false);
    assert Next(t2, FetchFailed) == Some(t3);
    assert Run(t2, fs[1..][1..][1..]) == Some(t3);
    assert Run(t1, fs[1..][1..]) == Some(t3);
    assert Run(t1, fs[1..]) == Some(t3);
    assert t1.sent + [StaleResponse(r)] == s.sent + [StaleResponse(s.apiResponse.value), StaleResponse(r)];
  }

  /** `main`'s locals as an object: each call of `Step` is one pass of the
      `while True` body. */
  class Bot {
    var timestamp: Json
    var sendErrorApiMsg: bool
    var sent: seq<Message>
    var apiResponse: Option<Json>

    /** The locals as a value. */
    function State(): LoopState
      reads this
    {
      LoopState(timestamp, sendErrorApiMsg, sent, apiResponse)
    }

    predicate Valid()
      reads this
    {
      Consistent(State())
    }

    /** Start-up after the credential check: the cursor is the start time. */
    constructor (now: int)
      ensures Valid() && State() == Initial(now)
    {
      timestamp := JInt(now);
      sendErrorApiMsg := true;
      sent := [];
      apiResponse := None;
    }

    /** `send_message`: the message is appended; a failed delivery is
      swallowed, so from here it always succeeds. */
    method SendMessage(m: Message)
      modifies this
      ensures sent == old(sent) + [m]
      ensures timestamp == old(timestamp) && sendErrorApiMsg == old(sendErrorApiMsg)
      ensures apiResponse == old(apiResponse)
    {
      sent := sent + [m];
    }

    /** One pass of the loop body for the given fetch outcome. It returns
        `crashed` when the process died reading the unbound answer, and
        then nothing has changed; otherwise the new locals are `Next`'s. */
    method Step(f: Fetch) returns (crashed: bool)
      requires Valid()
      modifies this
      ensures crashed <==> Next(old(State()), f).None?
      ensures crashed <==> (f.FetchFailed? && old(apiResponse).None?)
      ensures crashed ==> State() == old(State())
      ensures !crashed ==> Next(old(State()), f) == Some(State())
      ensures Valid()
    {
      NextCrashesOnlyUnbound(State(), f);
      crashed := false;
      var error: Option<Exception> := None;
      match f {
        case FetchFailed =>
          error := Some(ApiAnswer);
        case Fetched(response) =>
          apiResponse := Some(response);
          if Truthy(response) {
            sendErrorApiMsg := true;
            var check := CheckResponse(response);
            if check.Raise? {
              error := Some(check.exc);
            } else if check.value {
              var status := ParseStatus(FirstRecord(response));
              if status.Raise? {
                error := Some(status.exc);
              } else {
                if status.value != "" {
                  SendMessage(Text(status.value));
                }
                timestamp := Get(response.fields, "current_date");
              }
            }
          }
      }
      if error.Some? {
        if error.value.ApiAnswer? {
          if sendErrorApiMsg {
            if apiResponse.None? {
              crashed := true;
              return;
            }
            SendMessage(StaleResponse(apiResponse.value));
            sendErrorApiMsg := false;
          }
        } else {
          SendMessage(ErrorReport(error.value));
        }
      }
    }

    /** The `while True` loop over the given fetch outcomes (the sleep
        between passes is left out); it stops early only on a crash. */
    method Poll(fetches: seq<Fetch>) returns (crashed: bool)
      requires Valid()
      modifies this
      ensures Valid()
      ensures crashed <==> Run(old(State()), fetches).None?
      ensures !crashed ==> Run(old(State()), fetches) == Some(State())
    {
      crashed := false;
      var i := 0;
      while i < |fetches|
        invariant 0 <= i <= |fetches|
        invariant Valid()
        invariant Run(old(State()), fetches[..i]) == Some(State())
      {
        RunConcat(old(State()), fetches[..i], [fetches[i]]);
        assert fetches[..i + 1] == fetches[..i] + [fetches[i]];
        crashed := Step(fetches[i]);
        if crashed {
          RunCrashed(old(State()), fetches, i + 1);
          return;
        }
        i := i + 1;
      }
      assert fetches[..i] == fetches;
    }
  }

  /** Once a prefix of the outcomes crashes, the whole run has crashed. */
  lemma {:induction false} RunCrashed(s: LoopState, fs: seq<Fetch>, k: nat)
    requires k <= |fs|
    requires Run(s, fs[..k]).None?
    ensures Run(s, fs).None?
    decreases k
  {
    assert fs[..k][0] == fs[0];
    assert fs[..k][1..] == fs[1..][..k - 1];
    match Next(s, fs[0])
    case None =>
    case Some(t) => RunCrashed(t, fs[1..], k - 1);
  }
}
