/** Validation of the review API's answer and translation of the latest
    submission's status into the notification text. */
module Homework {
  import opened JsonValue

  /** The verdict sentence for each known review status. */
  const HomeworkVerdicts: map<string, string> := map[
    "approved" := "Работа проверена: ревьюеру всё понравилось. Ура!",
    "reviewing" := "Работа взята на проверку ревьюером.",
    "rejected" := "Работа проверена: у ревьюера есть замечания."
  ]

  /** The text every notification starts with, up to the opening quote of the name. */
  const NotificationPrefix: string := "Изменился статус проверки работы \""

  /** Why `check_response` (or the verdict lookup) raised `TypeError`. */
  datatype TypeErrorReason =
    | NotADict           // the answer is not a dict
    | MissingKeys        // `homeworks` or `current_date` is absent or null
    | HomeworksNotAList  // `homeworks` is not exactly a list
    | FirstNotADict      // `homeworks[0]` is not a dict
    | FirstMissingKeys   // `homeworks[0]` lacks `homework_name` or `status`
    | UnhashableStatus   // the status is a list or dict, which `dict.get` refuses

  /** Why `parse_status` raised `AssistantException`. */
  datatype AssistantReason = MissingName | UnknownStatus(status: Json)

  /** The exceptions that can reach the polling loop's handlers. `ApiAnswer`
      is `ApiAnswerException`, a subclass of `AssistantException`; `Assistant`
      is an `AssistantException` that is not an `ApiAnswerException`. */
  datatype Exception =
    | ApiAnswer
    | Assistant(reason: AssistantReason)
    | TypeError(why: TypeErrorReason)
    | KeyError(key: string)

  /** A Python call either returns a value or raises. */
  datatype Outcome<+T> = Return(value: T) | Raise(exc: Exception)

  /** The answer has both keys non-null and `homeworks` is the empty list. */
  predicate NoUpdates(response: Json) {
    && response.JObj?
    && Get(response.fields, "current_date") != JNull
    && Get(response.fields, "homeworks") == JList([])
  }

  /** The answer has both keys non-null and `homeworks` is a list whose
      first element is a dict with non-null `homework_name` and `status`. */
  predicate HasUpdate(response: Json) {
    && response.JObj?
    && Get(response.fields, "current_date") != JNull
    && var homeworks := Get(response.fields, "homeworks");
    && homeworks.JList?
    && |homeworks.items| > 0
    && homeworks.items[0].JObj?
    && Get(homeworks.items[0].fields, "homework_name") != JNull
    && Get(homeworks.items[0].fields, "status") != JNull
  }

  /** `response['homeworks'][0]` of an answer that passed the check. */
  function FirstRecord(response: Json): (r: map<string, Json>)
    requires HasUpdate(response)
    ensures "status" in r && r["status"] != JNull
    ensures "homework_name" in r && r["homework_name"] != JNull
  {
    response.fields["homeworks"].items[0].fields
  }

  /** `check_response`: `True` exactly when there is a record to translate,
      `False` exactly when `homeworks` is empty, and otherwise `TypeError`
      (never another exception). The dict check comes first, then the key
      check, then the list check. */
  function CheckResponse(response: Json): (r: Outcome<bool>)
    ensures r == Return(true) <==> HasUpdate(response)
    ensures r == Return(false) <==> NoUpdates(response)
    ensures r.Raise? ==> r.exc.TypeError?
    ensures !response.JObj? ==> r == Raise(TypeError(NotADict))
    ensures response.JObj? && (IsNone(response.fields, "homeworks") || IsNone(response.fields, "current_date"))
            ==> r == Raise(TypeError(MissingKeys))
  {
    if !response.JObj? then
      Raise(TypeError(NotADict))
    else if IsNone(response.fields, "homeworks") || IsNone(response.fields, "current_date") then
      Raise(TypeError(MissingKeys))
    else if !response.fields["homeworks"].JList? then
      Raise(TypeError(HomeworksNotAList))
    else if |response.fields["homeworks"].items| == 0 then
      Return(false)
    else if !response.fields["homeworks"].items[0].JObj? then
      Raise(TypeError(FirstNotADict))
    else if IsNone(response.fields["homeworks"].items[0].fields, "homework_name")
         || IsNone(response.fields["homeworks"].items[0].fields, "status") then
      Raise(TypeError(FirstMissingKeys))
    else
      Return(true)
  }

  /** Only `homeworks[0]` is inspected: replacing the records after it, or
      anything else in the answer but the two keys, never changes the outcome. */
  lemma OnlyFirstRecordInspected(
    fields1: map<string, Json>, fields2: map<string, Json>, date: Json, first: Json,
    rest1: seq<Json>, rest2: seq<Json>)
    ensures CheckResponse(JObj(fields1["homeworks" := JList([first] + rest1)]["current_date" := date]))
         == CheckResponse(JObj(fields2["homeworks" := JList([first] + rest2)]["current_date" := date]))
  {
  }

  /** `HOMEWORK_VERDICTS.get(status)`: a verdict only for one of the three
      known status strings. */
  function Verdict(status: Json): (r: Option<string>)
    ensures r.Some? <==> status.JStr? && status.s in HomeworkVerdicts
    ensures r.Some? ==> r.value == HomeworkVerdicts[status.s]
  {
    if status.JStr? && status.s in HomeworkVerdicts then Some(HomeworkVerdicts[status.s]) else None
  }

  /** The status value can be used as a dict key (lists and dicts cannot). */
  predicate Hashable(j: Json) {
    !j.JList? && !j.JObj?
  }

  /** `parse_status`: reading `homework['status']` fails first with
      `KeyError`; an unhashable status fails the lookup with `TypeError`; a
      falsy name is reported before an unknown status; a status outside the
      table is reported by value; only a truthy name with a known status
      yields a message, and that message ends with the status's verdict. */
  function ParseStatus(homework: map<string, Json>): (r: Outcome<string>)
    ensures "status" !in homework ==> r == Raise(KeyError("status"))
    ensures "status" in homework && !Hashable(homework["status"]) ==> r == Raise(TypeError(UnhashableStatus))
    ensures "status" in homework && Hashable(homework["status"]) && !Truthy(Get(homework, "homework_name"))
            ==> r == Raise(Assistant(MissingName))
    ensures "status" in homework && Hashable(homework["status"]) && Truthy(Get(homework, "homework_name"))
            && Verdict(homework["status"]).None?
            ==> r == Raise(Assistant(UnknownStatus(homework["status"])))
    ensures r.Return? <==> ("status" in homework && homework["status"].JStr?
                            && homework["status"].s in HomeworkVerdicts
                            && Truthy(Get(homework, "homework_name")))
    ensures r.Return? ==> |r.value| >= |NotificationPrefix| + 3 + |HomeworkVerdicts[homework["status"].s]|
                          && r.value[..|NotificationPrefix|] == NotificationPrefix
                          && r.value[|r.value| - |HomeworkVerdicts[homework["status"].s]|..]
                             == HomeworkVerdicts[homework["status"].s]
  {
    if "status" !in homework then
      Raise(KeyError("status"))
    else if !Hashable(homework["status"]) then
      Raise(TypeError(UnhashableStatus))
    else
      var verdict := Verdict(homework["status"]);
      if !Truthy(Get(homework, "homework_name")) then
        Raise(Assistant(MissingName))
      else if verdict.None? then
        Raise(Assistant(UnknownStatus(homework["status"])))
      else
        Return(NotificationPrefix + Display(homework["homework_name"]) + "\". " + verdict.value)
  }

  /** For any record whose name is a non-empty string and whose status is
      known, whatever other keys it carries, the message is exactly the
      fixed sentence around the name followed by the status's verdict. */
  lemma KnownStatusMessage(homework: map<string, Json>, name: string, status: string)
    requires "homework_name" in homework && homework["homework_name"] == JStr(name) && name != ""
    requires "status" in homework && homework["status"] == JStr(status) && status in HomeworkVerdicts
    ensures ParseStatus(homework)
         == Return("Изменился статус проверки работы \"" + name + "\". " + HomeworkVerdicts[status])
  {
  }

  /** No two statuses share a verdict: the table is injective. */
  lemma VerdictsDistinct(s1: string, s2: string)
    requires s1 in HomeworkVerdicts && s2 in HomeworkVerdicts
    requires HomeworkVerdicts[s1] == HomeworkVerdicts[s2]
    ensures s1 == s2
  {
  }

  /** Two records with the same name yield the same message only if their
      statuses are the same: the message tells the status apart. */
  lemma MessageDeterminesStatus(h1: map<string, Json>, h2: map<string, Json>)
    requires ParseStatus(h1).Return? && ParseStatus(h2).Return?
    requires Get(h1, "homework_name") == Get(h2, "homework_name")
    requires ParseStatus(h1).value == ParseStatus(h2).value
    ensures h1["status"] == h2["status"]
  {
  }

  /** After `check_response` returned `True`, translating the first record
      cannot fail with `KeyError`; it fails only with an empty (falsy but
      non-null) name, an unknown status, or an unhashable status. */
  lemma ParseAfterCheck(response: Json)
    requires CheckResponse(response) == Return(true)
    ensures ParseStatus(FirstRecord(response)).Raise? ==>
      ParseStatus(FirstRecord(response)).exc in
        {Assistant(MissingName), Assistant(UnknownStatus(FirstRecord(response)["status"])),
         TypeError(UnhashableStatus)}
  {
  }
}
