/** The poll loop of `main`: one cycle fetches, checks and formats, then
    notifies the chat unless the text was sent before, remembering every
    text it delivered in `message_list`. */
module Poll {
  import opened PyValues
  import opened Homework

  /** What the bot's `send_message` did with one text: delivered it, or
      raised an exception whose text is `reason`. */
  datatype Delivery = Delivered | Failed(reason: string)

  /** How a cycle ends: it reaches the sleep, or an exception escapes the
      loop and ends the process. */
  datatype Outcome = Slept | Crashed(error: Exc)

  const SendFailedPrefix := "Бот не смог отправить сообщение - "
  const SendFailedMiddle := "! из-за ошибки "

  /** The exception `send_message` raises when the bot fails. */
  function SendFailure(message: string, reason: string): (e: Exc)
    ensures e.ExceptionErrors? && |e.msg| > |message|
    ensures |e.msg| == |SendFailedPrefix| + |message| + |SendFailedMiddle| + |reason|
    ensures e.msg[..|SendFailedPrefix|] == SendFailedPrefix
    ensures e.msg[|SendFailedPrefix|..|SendFailedPrefix| + |message|] == message
    ensures e.msg[|SendFailedPrefix| + |message|..|e.msg| - |reason|] == SendFailedMiddle
    ensures e.msg[|e.msg| - |reason|..] == reason
  {
    ExceptionErrors(SendFailedPrefix + message + SendFailedMiddle + reason)
  }

  /** The loop's `except (ExceptionErrors, TypeError)`. */
  predicate Caught(e: Exc) {
    e.ExceptionErrors? || e.TypeError?
  }

  predicate NoDup(s: seq<string>) {
    forall i, j :: 0 <= i < j < |s| ==> s[i] != s[j]
  }

  // ---------------------------------------------------------------------
  // Start-up
  // ---------------------------------------------------------------------

  /** An environment value as Python tests it: set and not empty. */
  predicate Truthy(token: Option<string>) {
    token.Some? && token.value != ""
  }

  /** `check_tokens`: the bot may start only when all three secrets are
      there; one unset or empty secret is enough to stop it. */
  function CheckTokens(practicum: Option<string>, telegram: Option<string>,
                       chat: Option<string>): (ok: bool)
    ensures !ok <==> None in [practicum, telegram, chat] || Some("") in [practicum, telegram, chat]
  {
    var tokens := [practicum, telegram, chat];
    assert tokens[0] == practicum && tokens[1] == telegram && tokens[2] == chat;
    Truthy(practicum) && Truthy(telegram) && Truthy(chat)
  }

  // ---------------------------------------------------------------------
  // One cycle, as a function
  // ---------------------------------------------------------------------

  /** The `try` block up to the notification: fetch, check, format. */
  function Attempt(f: Fetch): (r: Result<string>)
    ensures r.Ok? ==> |r.value| >= |ChangedPrefix| && r.value[..|ChangedPrefix|] == ChangedPrefix
    ensures r.Err? && !Caught(r.error) ==> r.error == KeyError("status")
  {
    var response := GetApiAnswer(f);
    if response.Err? then Err(response.error)
    else
      var homework := CheckResponse(response.value);
      if homework.Err? then Err(homework.error)
      else
        var message := ParseStatus(homework.value);
        if message.Ok? then
          StatusChangedParts(Str(Get(homework.value.fields, "homework_name").value),
                             Verdicts[StatusOf(homework.value).value.s]);
          message
        else message
  }

  /** The texts a cycle leaves in `message_list`, the texts it handed to
      the bot (in order, delivered or not), and how it ended. */
  datatype CycleResult = CycleResult(sent: seq<string>, attempts: seq<string>, outcome: Outcome)

  /** The `except` branch: an error the loop catches is sent as text unless
      that text was sent before; anything else escapes. */
  function Report(sent: seq<string>, error: Exc, bot: string -> Delivery): (r: CycleResult)
    ensures !Caught(error) ==> r == CycleResult(sent, [], Crashed(error))
    ensures r.attempts == [] <==> !Caught(error) || Message(error) in sent
    ensures r.attempts == [] || r.attempts == [Message(error)]
    ensures r.sent == sent ||
      (r.sent == sent + [Message(error)] && Message(error) !in sent && bot(Message(error)) == Delivered)
    ensures r.outcome.Crashed? ==> r.sent == sent
    ensures Caught(error) && Message(error) in sent ==> r == CycleResult(sent, [], Slept)
    ensures Caught(error) && Message(error) !in sent && bot(Message(error)) == Delivered ==>
      r.sent == sent + [Message(error)] && r.outcome == Slept
    ensures Caught(error) && Message(error) !in sent && bot(Message(error)).Failed? ==>
      r.outcome == Crashed(SendFailure(Message(error), bot(Message(error)).reason))
  {
    if !Caught(error) then CycleResult(sent, [], Crashed(error))
    else
      var text := Message(error);
      if text in sent then CycleResult(sent, [], Slept)
      else
        match bot(text)
        case Delivered => CycleResult(sent + [text], [text], Slept)
        case Failed(reason) => CycleResult(sent, [text], Crashed(SendFailure(text, reason)))
  }

  /** One pass of the loop body over the list `sent`. A failed send on the
      happy path raises `ExceptionErrors` inside the `try`, so it is
      reported like any other caught error. */
  function Cycle(sent: seq<string>, f: Fetch, bot: string -> Delivery): (c: CycleResult)
    ensures |c.attempts| <= 2
    ensures sent <= c.sent && |c.sent| <= |sent| + 1
    ensures c.outcome.Crashed? ==> c.sent == sent
  {
    match Attempt(f)
    case Err(e) => Report(sent, e, bot)
    case Ok(message) =>
      if message in sent then CycleResult(sent, [], Slept)
      else
        match bot(message)
        case Delivered => CycleResult(sent + [message], [message], Slept)
        case Failed(reason) =>
          var r := Report(sent, SendFailure(message, reason), bot);
          CycleResult(r.sent, [message] + r.attempts, r.outcome)
  }

  // ---------------------------------------------------------------------
  // What one cycle guarantees
  // ---------------------------------------------------------------------

  /** A text already in the list is neither sent nor added again. */
  lemma CycleSkipsKnownMessage(sent: seq<string>, f: Fetch, bot: string -> Delivery)
    requires Attempt(f).Ok? && Attempt(f).value in sent
    ensures Cycle(sent, f, bot) == CycleResult(sent, [], Slept)
  {
  }

  lemma CycleSkipsKnownError(sent: seq<string>, f: Fetch, bot: string -> Delivery)
    requires Attempt(f).Err? && Caught(Attempt(f).error) && Message(Attempt(f).error) in sent
    ensures Cycle(sent, f, bot) == CycleResult(sent, [], Slept)
  {
  }

  /** A new status text is sent once and added once. */
  lemma CycleSendsNewMessageOnce(sent: seq<string>, f: Fetch, bot: string -> Delivery)
    requires Attempt(f).Ok? && Attempt(f).value !in sent
    requires bot(Attempt(f).value) == Delivered
    ensures Cycle(sent, f, bot) == CycleResult(sent + [Attempt(f).value], [Attempt(f).value], Slept)
  {
  }

  /** An exception the loop does not catch (a record without `status`)
      escapes before anything is sent. */
  lemma CycleUncaughtEscapes(sent: seq<string>, f: Fetch, bot: string -> Delivery)
    requires Attempt(f).Err? && !Caught(Attempt(f).error)
    ensures Cycle(sent, f, bot) == CycleResult(sent, [], Crashed(KeyError("status")))
  {
  }

  /** A caught error's text goes out under the same no-repeat rule. */
  lemma CycleReportsNewError(sent: seq<string>, f: Fetch, bot: string -> Delivery)
    requires Attempt(f).Err? && Caught(Attempt(f).error)
    requires Message(Attempt(f).error) !in sent
    requires bot(Message(Attempt(f).error)) == Delivered
    ensures var t := Message(Attempt(f).error);
      Cycle(sent, f, bot) == CycleResult(sent + [t], [t], Slept)
  {
  }

  /** The `except` branch sends outside the `try`: when that send fails,
      its `ExceptionErrors` ends the process and nothing is added. */
  lemma CycleErrorSendFailureEscapes(sent: seq<string>, f: Fetch, bot: string -> Delivery)
    requires Attempt(f).Err? && Caught(Attempt(f).error)
    requires Message(Attempt(f).error) !in sent
    requires bot(Message(Attempt(f).error)).Failed?
    ensures var t := Message(Attempt(f).error);
      Cycle(sent, f, bot) == CycleResult(sent, [t], Crashed(SendFailure(t, bot(t).reason)))
  {
  }

  /** The happy-path send is inside the `try`: when it fails, its
      `ExceptionErrors` is caught and reported like any other error. */
  lemma CycleHappySendFailureIsReported(sent: seq<string>, f: Fetch, bot: string -> Delivery)
    requires Attempt(f).Ok? && Attempt(f).value !in sent
    requires bot(Attempt(f).value).Failed?
    ensures var m := Attempt(f).value;
      var r := Report(sent, SendFailure(m, bot(m).reason), bot);
      Cycle(sent, f, bot) == CycleResult(r.sent, [m] + r.attempts, r.outcome)
  {
  }

  /** A failed happy-path send whose failure text an earlier cycle already
      reported sends nothing more, and the loop goes on to the sleep. */
  lemma CycleHappySendFailureKnown(sent: seq<string>, f: Fetch, bot: string -> Delivery)
    requires Attempt(f).Ok? && Attempt(f).value !in sent
    requires bot(Attempt(f).value).Failed?
    requires var m := Attempt(f).value; Message(SendFailure(m, bot(m).reason)) in sent
    ensures Cycle(sent, f, bot) == CycleResult(sent, [Attempt(f).value], Slept)
  {
  }

  /** What the loop sends for a caught exception is its message alone: an
      `ExceptionErrors` and a `TypeError` with the same text are one entry
      of `message_list`. */
  lemma CaughtErrorText(e: Exc)
    requires Caught(e)
    ensures Message(ExceptionErrors(e.msg)) == Message(TypeError(e.msg))
  {
  }

  /** The order send-then-append: only texts the bot delivered are added,
      every delivered text is added, nothing already in the list is handed
      to the bot, and a cycle whose exception escapes leaves the list as it
      was. At most one text is added, so the list never holds duplicates. */
  lemma CycleAppendsOnlyDelivered(sent: seq<string>, f: Fetch, bot: string -> Delivery)
    ensures var c := Cycle(sent, f, bot);
      && |c.attempts| <= 2
      && (forall k :: 0 <= k < |c.attempts| ==> c.attempts[k] !in sent)
      && (forall k :: 0 <= k < |c.attempts| && bot(c.attempts[k]) == Delivered ==>
            c.attempts[k] in c.sent)
      && (c.sent == sent ||
          exists m :: m !in sent && m in c.attempts && bot(m) == Delivered && c.sent == sent + [m])
      && (c.outcome.Crashed? ==> c.sent == sent)
  {
  }

  lemma CycleKeepsNoDup(sent: seq<string>, f: Fetch, bot: string -> Delivery)
    requires NoDup(sent)
    ensures NoDup(Cycle(sent, f, bot).sent)
    ensures sent <= Cycle(sent, f, bot).sent
    ensures |Cycle(sent, f, bot).sent| <= |sent| + 1
  {
    CycleAppendsOnlyDelivered(sent, f, bot);
    var c := Cycle(sent, f, bot);
    if c.sent != sent {
      var m :| m !in sent && m in c.attempts && bot(m) == Delivered && c.sent == sent + [m];
      forall i, j | 0 <= i < j < |c.sent| ensures c.sent[i] != c.sent[j] {
        if j == |sent| {
          assert c.sent[i] in sent;
        }
      }
    }
  }

  /** Running the same cycle twice on the same answers delivers nothing the
      second time: the chat gets each text at most once, and a repeated
      error is not re-sent. */
  lemma CycleIdempotent(sent: seq<string>, f: Fetch, bot: string -> Delivery)
    ensures var c := Cycle(sent, f, bot);
      var again := Cycle(c.sent, f, bot);
      again.sent == c.sent &&
      forall k :: 0 <= k < |again.attempts| ==> bot(again.attempts[k]).Failed?
  {
    var c := Cycle(sent, f, bot);
    CycleAppendsOnlyDelivered(c.sent, f, bot);
    match Attempt(f)
    case Err(e) =>
    case Ok(message) =>
      if message !in sent && bot(message).Failed? {
        var text := Message(SendFailure(message, bot(message).reason));
        assert text in c.sent || c.sent == sent;
      }
  }

  /** The text of an error the loop catches never starts like a status
      notification, so an error report never stands in for a status change
      in the de-duplication list, nor the other way round. */
  lemma ErrorTextsAreNotNotifications(f: Fetch, message: string, reason: string)
    ensures Attempt(f).Err? && Caught(Attempt(f).error) ==>
      |Message(Attempt(f).error)| > 0 && Message(Attempt(f).error)[0] != ChangedPrefix[0]
    ensures Message(SendFailure(message, reason))[0] != ChangedPrefix[0]
  {
    var response := GetApiAnswer(f);
    if response.Ok? && CheckResponse(response.value).Ok? {
      var homework := CheckResponse(response.value).value;
      if homework.JObject? && StatusOf(homework).Some? && IsHashable(StatusOf(homework).value) {
        assert UnknownStatusPrefix[0] != ChangedPrefix[0];
      }
    }
  }

  // ---------------------------------------------------------------------
  // Many cycles
  // ---------------------------------------------------------------------

  /** What the outside world does in one cycle: the API's answer for any
      `from_date`, and the bot's behaviour for any text. */
  datatype Round = Round(api: int -> Fetch, bot: string -> Delivery)

  datatype RunResult = RunResult(sent: seq<string>, outcome: Outcome)

  /** The `while True` loop over a finite stretch of rounds, every one of
      them asking for the same `from_date`; it stops at the first escaping
      exception. */
  function Run(fromDate: int, sent: seq<string>, rounds: seq<Round>): (r: RunResult)
    ensures sent <= r.sent && |r.sent| <= |sent| + |rounds|
    decreases |rounds|
  {
    if rounds == [] then RunResult(sent, Slept)
    else
      var c := Cycle(sent, rounds[0].api(fromDate), rounds[0].bot);
      if c.outcome.Crashed? then RunResult(c.sent, c.outcome)
      else Run(fromDate, c.sent, rounds[1..])
  }

  /** Over any number of cycles the list only grows, by at most one text a
      cycle, and never holds a text twice. */
  lemma {:induction false} RunKeepsNoDup(fromDate: int, sent: seq<string>, rounds: seq<Round>)
    requires NoDup(sent)
    ensures var r := Run(fromDate, sent, rounds);
      NoDup(r.sent) && sent <= r.sent && |r.sent| <= |sent| + |rounds|
    decreases |rounds|
  {
    if rounds != [] {
      var c := Cycle(sent, rounds[0].api(fromDate), rounds[0].bot);
      CycleKeepsNoDup(sent, rounds[0].api(fromDate), rounds[0].bot);
      if !c.outcome.Crashed? {
        RunKeepsNoDup(fromDate, c.sent, rounds[1..]);
      }
    }
  }

  /** When the upstream keeps giving the same answer and the bot keeps
      behaving the same, only the first cycle can change the list. */
  lemma {:induction false} RunOnRepeatedAnswer(fromDate: int, sent: seq<string>, round: Round, n: nat)
    requires n >= 1
    ensures Run(fromDate, sent, seq(n, _ => round)) ==
      Run(fromDate, sent, [round])
  {
    var c := Cycle(sent, round.api(fromDate), round.bot);
    var rounds := seq(n, _ => round);
    assert rounds[0] == round;
    assert Run(fromDate, sent, [round]) == RunResult(c.sent, c.outcome) by {
      assert [round][0] == round && [round][1..] == [];
    }
    if n > 1 && !c.outcome.Crashed? {
      assert rounds[1..] == seq(n - 1, _ => round);
      RepeatAfterFirst(fromDate, c.sent, round, n - 1);
    }
  }

  /** Helper: after a first cycle that reached the sleep, repeating the same
      round leaves the list where it is. */
  lemma {:induction false} RepeatAfterFirst(fromDate: int, sent: seq<string>, round: Round, n: nat)
    requires exists s0 :: sent == Cycle(s0, round.api(fromDate), round.bot).sent
    requires n >= 1
    ensures Run(fromDate, sent, seq(n, _ => round)).sent == sent
    ensures Run(fromDate, sent, seq(n, _ => round)).outcome ==
      Cycle(sent, round.api(fromDate), round.bot).outcome
    decreases n
  {
    var s0 :| sent == Cycle(s0, round.api(fromDate), round.bot).sent;
    CycleIdempotent(s0, round.api(fromDate), round.bot);
    var c := Cycle(sent, round.api(fromDate), round.bot);
    var rounds := seq(n, _ => round);
    assert rounds[0] == round;
    if n > 1 && !c.outcome.Crashed? {
      assert rounds[1..] == seq(n - 1, _ => round);
      RepeatAfterFirst(fromDate, sent, round, n - 1);
    }
  }

  // ---------------------------------------------------------------------
  // The loop's state, updated in place
  // ---------------------------------------------------------------------

  /** The process state `main` keeps: the `from_date` fixed at start-up and
      `message_list`; the ghost logs record every text handed to the bot,
      every text it delivered, and every `from_date` requested. */
  class Poller {
    const fromDate: int
    var sent: seq<string>
    ghost var attempted: seq<string>
    ghost var delivered: seq<string>
    ghost var queried: seq<int>

    /** Every delivered text is in the list and nothing else is, no text is
        there twice, and every request used the start-up timestamp. */
    ghost predicate Valid()
      reads this
    {
      && delivered == sent
      && NoDup(sent)
      && forall k :: 0 <= k < |queried| ==> queried[k] == fromDate
    }

    constructor (now: int)
      ensures Valid()
      ensures fromDate == now && sent == [] && attempted == [] && queried == []
    {
      fromDate := now;
      sent := [];
      attempted := [];
      delivered := [];
      queried := [];
    }

    /** `send_message`: hands the text to the bot; a bot failure comes back
        as the `ExceptionErrors` that Python raises. */
    method SendMessage(bot: string -> Delivery, message: string) returns (failure: Option<Exc>)
      modifies this`attempted, this`delivered
      ensures attempted == old(attempted) + [message]
      ensures bot(message) == Delivered ==> failure == None && delivered == old(delivered) + [message]
      ensures bot(message).Failed? ==>
        failure == Some(SendFailure(message, bot(message).reason)) && delivered == old(delivered)
    {
      attempted := attempted + [message];
      match bot(message)
      case Delivered =>
        delivered := delivered + [message];
        failure := None;
      case Failed(reason) =>
        failure := Some(SendFailure(message, reason));
    }

    /** `if message not in message_list`, then `send_message` and only after
        it returns `message_list.append`: a text is added exactly when the
        bot delivered it, and a text already in the list is not sent. */
    method Notify(bot: string -> Delivery, text: string) returns (failure: Option<Exc>)
      requires Valid()
      modifies this`sent, this`attempted, this`delivered
      ensures Valid()
      ensures text in old(sent) ==>
        failure == None && sent == old(sent) && attempted == old(attempted)
      ensures text !in old(sent) ==> attempted == old(attempted) + [text]
      ensures text !in old(sent) && bot(text) == Delivered ==>
        failure == None && sent == old(sent) + [text]
      ensures text !in old(sent) && bot(text).Failed? ==>
        failure == Some(SendFailure(text, bot(text).reason)) && sent == old(sent)
    {
      failure := None;
      if text !in sent {
        failure := SendMessage(bot, text);
        if failure.None? {
          sent := sent + [text];
        }
      }
    }

    /** One pass of the `while True` body, up to the sleep. */
    method Step(api: int -> Fetch, bot: string -> Delivery) returns (outcome: Outcome)
      requires Valid()
      modifies this
      ensures Valid()
      ensures queried == old(queried) + [fromDate]
      ensures var c := Cycle(old(sent), api(fromDate), bot);
        sent == c.sent && outcome == c.outcome && attempted == old(attempted) + c.attempts
    {
      queried := queried + [fromDate];
      ghost var attempt := Attempt(api(fromDate));
      var failure: Option<Exc> := None;
      var response := GetApiAnswer(api(fromDate));
      if response.Err? {
        failure := Some(response.error);
        assert attempt == Err(response.error);
      } else {
        var homework := CheckResponse(response.value);
        if homework.Err? {
          failure := Some(homework.error);
          assert attempt == Err(homework.error);
        } else {
          var message := ParseStatus(homework.value);
          assert attempt == message;
          if message.Err? {
            failure := Some(message.error);
          } else {
            failure := Notify(bot, message.value);
          }
        }
      }
      outcome := Slept;
      if failure.Some? {
        var error := failure.value;
        if !Caught(error) {
          outcome := Crashed(error);
        } else {
          var sendFailure := Notify(bot, Message(error));
          if sendFailure.Some? {
            outcome := Crashed(sendFailure.value);
          }
        }
      }
    }
  }

  /** `main` up to the loop: stop when a secret is missing, before any
      request is made; otherwise fix `from_date` to the current time. */
  method Start(practicum: Option<string>, telegram: Option<string>, chat: Option<string>,
               now: int) returns (poller: Poller?)
    ensures poller == null <==> !CheckTokens(practicum, telegram, chat)
    ensures poller != null ==>
      fresh(poller) && poller.Valid() && poller.fromDate == now &&
      poller.sent == [] && poller.queried == [] && poller.attempted == []
  {
    if !CheckTokens(practicum, telegram, chat) {
      return null;
    }
    poller := new Poller(now);
  }

  // ---------------------------------------------------------------------
  // End-to-end scenarios
  // ---------------------------------------------------------------------

  function Envelope(homeworks: seq<Json>): Json {
    JObject([("homeworks", JArray(homeworks))])
  }

  /** An approved `hw1` is announced with the approved verdict. */
  lemma ApprovedHomeworkIsAnnounced(bot: string -> Delivery)
    requires forall m :: bot(m) == Delivered
    ensures var record := JObject([("status", JStr("approved")), ("homework_name", JStr("hw1"))]);
      var expected := "Изменился статус проверки работы \"" + "hw1" + "\". " +
        "Работа проверена: ревьюеру всё понравилось. Ура!";
      Cycle([], Answered(200, Decoded(Envelope([record]))), bot) ==
        CycleResult([expected], [expected], Slept)
  {
  }

  /** An empty `homeworks` list is reported once; the same answer in the
      next cycle sends nothing. */
  lemma EmptyListReportedOnce(bot: string -> Delivery)
    requires forall m :: bot(m) == Delivered
    ensures var f := Answered(200, Decoded(Envelope([])));
      var first := Cycle([], f, bot);
      first == CycleResult([EmptyListMessage], [EmptyListMessage], Slept) &&
      Cycle(first.sent, f, bot) == CycleResult(first.sent, [], Slept)
  {
  }

  /** A 503 from the server is reported once, naming the code; a second
      503 sends nothing. */
  lemma ServiceUnavailableReportedOnce(bot: string -> Delivery)
    requires forall m :: bot(m) == Delivered
    ensures var f := Answered(503, Undecodable(""));
      var expected := "Другие ошибки с доступом " + "Сервер не отвечает " + "503";
      var first := Cycle([], f, bot);
      first == CycleResult([expected], [expected], Slept) &&
      Cycle(first.sent, f, bot) == CycleResult(first.sent, [], Slept)
  {
    assert IntToString(503) == "503" by {
      assert Digits(503) == Digits(50) + [DigitChar(3)];
      assert Digits(50) == Digits(5) + [DigitChar(0)];
    }
    var expected := "Другие ошибки с доступом " + "Сервер не отвечает " + "503";
    assert NoAnswerMessage(503) == expected;
    assert Attempt(Answered(503, Undecodable(""))) == Err(ExceptionErrors(expected));
  }
}
