/** The three pure steps of one poll: unwrapping the API answer
    (`get_api_answer`), checking the envelope's shape (`check_response`)
    and turning the latest homework record into a notification
    (`parse_status`), with the exceptions they raise as values. */
module Homework {
  import opened PyValues

  /** The exceptions that reach the poll loop. `ExceptionErrors` is the
      project's own exception class; `KeyError` carries the missing key. */
  datatype Exc =
    | ExceptionErrors(msg: string)
    | TypeError(msg: string)
    | KeyError(key: string)

  datatype Result<T> = Ok(value: T) | Err(error: Exc)

  /** `f'{error}'`: the text of a raised exception. */
  function Message(e: Exc): (r: string)
    ensures e.KeyError? ==> |r| >= 2 && r[0] == r[|r| - 1] && r[0] in "'\""
  {
    match e
    case ExceptionErrors(msg) => msg
    case TypeError(msg) => msg
    case KeyError(key) => QuoteRepr(key)
  }

  // ---------------------------------------------------------------------
  // get_api_answer
  // ---------------------------------------------------------------------

  /** What the body of a 200 answer turned into: the decoded value, or the
      text of the decoder's exception. */
  datatype Body = Decoded(json: Json) | Undecodable(reason: string)

  /** What the GET request for one `from_date` came back with: the text of
      a transport exception, or an answer with its status code and body. */
  datatype Fetch = TransportFailure(reason: string) | Answered(statusCode: int, body: Body)

  const HttpOk := 200
  const AccessErrorPrefix := "Другие ошибки с доступом "
  const NoAnswerPrefix := "Сервер не отвечает "

  /** The text that reaches the loop for a non-200 answer: the inner
      `ExceptionErrors` is caught by the function's own broad `except` and
      wrapped a second time. */
  function NoAnswerMessage(code: int): string {
    AccessErrorPrefix + NoAnswerPrefix + IntToString(code)
  }

  function GetApiAnswer(f: Fetch): (r: Result<Json>)
    ensures r.Ok? <==> f.Answered? && f.statusCode == HttpOk && f.body.Decoded?
    ensures r.Ok? ==> r.value == f.body.json
    ensures r.Err? ==> r.error.ExceptionErrors? && AccessErrorPrefix <= r.error.msg
    ensures f.TransportFailure? ==> r == Err(ExceptionErrors(AccessErrorPrefix + f.reason))
    ensures f.Answered? && f.statusCode != HttpOk ==>
      r == Err(ExceptionErrors(NoAnswerMessage(f.statusCode)))
    ensures f.Answered? && f.statusCode == HttpOk && f.body.Undecodable? ==>
      r == Err(ExceptionErrors(AccessErrorPrefix + f.body.reason))
  {
    match f
    case TransportFailure(reason) => Err(ExceptionErrors(AccessErrorPrefix + reason))
    case Answered(code, body) =>
      if code != HttpOk then
        var inner := ExceptionErrors(NoAnswerPrefix + IntToString(code));
        Err(ExceptionErrors(AccessErrorPrefix + Message(inner)))
      else
        match body
        case Decoded(json) => Ok(json)
        case Undecodable(reason) => Err(ExceptionErrors(AccessErrorPrefix + reason))
  }

  /** The status code can be read back from the text a non-200 answer
      produces, so two different codes are never reported with one text. */
  lemma NoAnswerMessageNamesCode(code: int)
    ensures |NoAnswerMessage(code)| > |AccessErrorPrefix + NoAnswerPrefix|
    ensures ParseInt(NoAnswerMessage(code)[|AccessErrorPrefix + NoAnswerPrefix|..]) == Some(code)
  {
    var head := AccessErrorPrefix + NoAnswerPrefix;
    assert NoAnswerMessage(code)[|head|..] == IntToString(code);
    IntToStringRoundTrip(code);
  }

  lemma NoAnswerMessagesDiffer(a: int, b: int)
    requires a != b
    ensures NoAnswerMessage(a) != NoAnswerMessage(b)
  {
    NoAnswerMessageNamesCode(a);
    NoAnswerMessageNamesCode(b);
  }

  // ---------------------------------------------------------------------
  // check_response
  // ---------------------------------------------------------------------

  // Long texts are written as two literals joined with `+`. The text is the
  // same; the verifier reads single characters (`s[0]`) out of a joined
  // constant but not out of one long literal.
  const NotADictMessage := "Полученный ответ " + "не является словарём!"
  const NoHomeworksKeyMessage := "В полученном словаре " + "нет ключа [homeworks]!"
  const NotAListMessage := "В элементе [homeworks] " + "не содержится списка!"
  const EmptyListMessage := "В элементе homeworks " + "пустой список!"

  /** The four shape rules, each stated on the whole answer; every rule
      includes the ones before it. */
  predicate IsDict(response: Json) {
    response.JObject?
  }

  predicate HasHomeworks(response: Json) {
    IsDict(response) && HasKey(response.fields, "homeworks")
  }

  predicate HomeworksIsList(response: Json) {
    HasHomeworks(response) && Get(response.fields, "homeworks").value.JArray?
  }

  predicate HomeworksNonEmpty(response: Json) {
    HomeworksIsList(response) && |Get(response.fields, "homeworks").value.items| > 0
  }

  /** The first homework record of an answer that passes all four rules. */
  function LatestHomework(response: Json): Json
    requires HomeworksNonEmpty(response)
  {
    Get(response.fields, "homeworks").value.items[0]
  }

  /** Only the first rule that fails is reported, each with its own text;
      an answer that passes all four yields its first record. */
  function CheckResponse(response: Json): (r: Result<Json>)
    ensures r == Err(TypeError(NotADictMessage)) <==> !IsDict(response)
    ensures r == Err(TypeError(NoHomeworksKeyMessage)) <==>
      IsDict(response) && !HasHomeworks(response)
    ensures r == Err(TypeError(NotAListMessage)) <==>
      HasHomeworks(response) && !HomeworksIsList(response)
    ensures r == Err(TypeError(EmptyListMessage)) <==>
      HomeworksIsList(response) && !HomeworksNonEmpty(response)
    ensures r.Ok? <==> HomeworksNonEmpty(response)
    ensures r.Ok? ==> r.value == LatestHomework(response)
  {
    if !response.JObject? then Err(TypeError(NotADictMessage))
    else if !HasKey(response.fields, "homeworks") then Err(TypeError(NoHomeworksKeyMessage))
    else
      var homeworks := Get(response.fields, "homeworks").value;
      if !homeworks.JArray? then Err(TypeError(NotAListMessage))
      else if |homeworks.items| == 0 then Err(TypeError(EmptyListMessage))
      else Ok(homeworks.items[0])
  }

  /** The four shape texts are pairwise different. */
  lemma ShapeMessagesDistinct()
    ensures NotADictMessage != NoHomeworksKeyMessage && NotADictMessage != NotAListMessage
    ensures NotADictMessage != EmptyListMessage && NoHomeworksKeyMessage != NotAListMessage
    ensures NoHomeworksKeyMessage != EmptyListMessage && NotAListMessage != EmptyListMessage
  {
  }

  /** `check_response` never looks inside the record it returns: swapping
      the first record for any other value changes nothing but the value
      returned. */
  lemma CheckResponseIgnoresRecord(before: seq<(string, Json)>, rest: seq<Json>,
                                   after: seq<(string, Json)>, first: Json, other: Json)
    requires forall j :: 0 <= j < |after| ==> after[j].0 != "homeworks"
    ensures
      var a := JObject(before + [("homeworks", JArray([first] + rest))] + after);
      var b := JObject(before + [("homeworks", JArray([other] + rest))] + after);
      CheckResponse(a) == Ok(first) && CheckResponse(b) == Ok(other)
  {
    GetPastLast(before, ("homeworks", JArray([first] + rest)), after);
    GetPastLast(before, ("homeworks", JArray([other] + rest)), after);
  }

  /** Members after the last one named `key` do not affect `Get`. */
  lemma {:induction false} GetPastLast(before: seq<(string, Json)>, member: (string, Json),
                                       after: seq<(string, Json)>)
    requires forall j :: 0 <= j < |after| ==> after[j].0 != member.0
    ensures Get(before + [member] + after, member.0) == Some(member.1)
  {
    if after != [] {
      var all := before + [member] + after;
      assert all[..|all| - 1] == before + [member] + after[..|after| - 1];
      GetPastLast(before, member, after[..|after| - 1]);
    } else {
      assert before + [member] + after == before + [member];
    }
  }

  // ---------------------------------------------------------------------
  // parse_status
  // ---------------------------------------------------------------------

  /** HOMEWORK_VERDICTS: the sentence sent for each known status. */
  const Verdicts: map<string, string> := map[
    "approved" := "Работа проверена: ревьюеру всё понравилось. Ура!",
    "reviewing" := "Работа взята на проверку ревьюером.",
    "rejected" := "Работа проверена: у ревьюера есть замечания."
  ]

  // Split in two literals for the verifier only, as above.
  const UnknownStatusPrefix := "Неизвестный статус " + "проверки домашнего задани "
  const MissingNameMessage := "Отсутствует название ДЗ!"
  const ChangedPrefix := "Изменился статус проверки работы \""
  const NameVerdictSeparator := "\". "

  /** The notification for a record whose status and name are known. */
  function StatusChanged(name: string, verdict: string): string {
    ChangedPrefix + name + NameVerdictSeparator + verdict
  }

  /** The `TypeError` text Python gives for `value['status']` on a value
      that is not a dict. */
  function NotSubscriptableMessage(value: Json): (r: string)
    requires !value.JObject?
    ensures |r| > 0 && r[0] != ChangedPrefix[0]
  {
    // The `+` splits only help the verifier index the texts.
    match value
    case JNull => "'NoneType' object " + "is not subscriptable"
    case JBool(_) => "'bool' object " + "is not subscriptable"
    case JInt(_) => "'int' object " + "is not subscriptable"
    case JStr(_) => "string indices must be integers"
    case JArray(_) => "list indices must be " + "integers or slices, not str"
  }

  /** The `TypeError` text for a list or dict used as a dict key, which is
      what `status in HOMEWORK_VERDICTS` does with the status value. */
  function UnhashableMessage(value: Json): (r: string)
    requires value.JArray? || value.JObject?
    ensures |r| > 0 && r[0] != ChangedPrefix[0]
  {
    if value.JArray? then "unhashable type: 'list'" else "unhashable type: 'dict'"
  }

  /** The record's status value, when the record is a dict that has one. */
  function StatusOf(homework: Json): Option<Json> {
    if homework.JObject? then Get(homework.fields, "status") else None
  }

  predicate IsHashable(value: Json) {
    !value.JArray? && !value.JObject?
  }

  /** The status is one of the keys of HOMEWORK_VERDICTS. */
  predicate KnownStatus(homework: Json) {
    var status := StatusOf(homework);
    status.Some? && status.value.JStr? && status.value.s in Verdicts
  }

  function ParseStatus(homework: Json): (r: Result<string>)
    // the record must be a dict holding `status`; otherwise Python raises
    ensures !homework.JObject? ==> r == Err(TypeError(NotSubscriptableMessage(homework)))
    ensures r.Err? && r.error.KeyError? <==> homework.JObject? && StatusOf(homework).None?
    ensures r.Err? && r.error.KeyError? ==> r.error.key == "status"
    // an unknown status is reported with its text, whatever the name
    ensures StatusOf(homework).Some? && !KnownStatus(homework) ==>
      r == (if IsHashable(StatusOf(homework).value)
            then Err(ExceptionErrors(UnknownStatusPrefix + Str(StatusOf(homework).value)))
            else Err(TypeError(UnhashableMessage(StatusOf(homework).value))))
    // a known status without a name
    ensures KnownStatus(homework) && !HasKey(homework.fields, "homework_name") ==>
      r == Err(ExceptionErrors(MissingNameMessage))
    // success exactly when the status is known and the name present
    ensures r.Ok? <==> KnownStatus(homework) && HasKey(homework.fields, "homework_name")
    ensures r.Ok? ==>
      r.value == StatusChanged(Str(Get(homework.fields, "homework_name").value),
                               Verdicts[StatusOf(homework).value.s])
  {
    if !homework.JObject? then Err(TypeError(NotSubscriptableMessage(homework)))
    else
      match Get(homework.fields, "status")
      case None => Err(KeyError("status"))
      case Some(status) =>
        if !IsHashable(status) then Err(TypeError(UnhashableMessage(status)))
        else if !(status.JStr? && status.s in Verdicts) then
          Err(ExceptionErrors(UnknownStatusPrefix + Str(status)))
        else if !HasKey(homework.fields, "homework_name") then
          Err(ExceptionErrors(MissingNameMessage))
        else
          var name := Get(homework.fields, "homework_name").value;
          Ok(StatusChanged(Str(name), Verdicts[status.s]))
  }

  /** The verdict table gives every status its own sentence. */
  lemma VerdictsDistinct(s1: string, s2: string)
    requires s1 in Verdicts && s2 in Verdicts && s1 != s2
    ensures Verdicts[s1] != Verdicts[s2]
  {
  }

  /** A notification holds the record's name and the verdict of its
      status, in the fixed template, and both can be cut back out of it. */
  lemma StatusChangedParts(name: string, verdict: string)
    ensures var m := StatusChanged(name, verdict);
      |m| == |ChangedPrefix| + |name| + |NameVerdictSeparator| + |verdict| &&
      m[..|ChangedPrefix|] == ChangedPrefix &&
      m[|ChangedPrefix|..|ChangedPrefix| + |name|] == name &&
      m[|m| - |verdict|..] == verdict
  {
  }

  /** For one homework, a change of status always gives a new text, so the
      de-duplication in the loop never hides a real status change. */
  lemma StatusChangeGivesNewMessage(h1: Json, h2: Json, m1: string, m2: string)
    requires ParseStatus(h1) == Ok(m1) && ParseStatus(h2) == Ok(m2)
    requires Get(h1.fields, "homework_name") == Get(h2.fields, "homework_name")
    ensures m1 == m2 <==> StatusOf(h1) == StatusOf(h2)
  {
  }

  /** An unknown status error names the offending value: its `str()` is the
      tail of the text. */
  lemma UnknownStatusNamesValue(homework: Json)
    requires StatusOf(homework).Some? && IsHashable(StatusOf(homework).value)
    requires !KnownStatus(homework)
    ensures ParseStatus(homework).Err? && ParseStatus(homework).error.ExceptionErrors?
    ensures var msg := ParseStatus(homework).error.msg;
      |msg| >= |UnknownStatusPrefix| &&
      msg[|UnknownStatusPrefix|..] == Str(StatusOf(homework).value)
  {
  }
}
