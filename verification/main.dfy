/**
 The web application's request handlers: the Telegram webhook, which classifies
 an update and sends one reply, and the two setup endpoints, which register the
 webhook and the command menu. A request is reduced to whether it is JSON and
 its decoded body.
 */
module App {
  import opened JsonValues
  import opened Collaborators
  import opened Utils

  datatype Request = Request(isJson: bool, body: Json)

  /** An HTTP reply: body text and status code. */
  datatype HttpReply = HttpReply(body: string, status: int)

  const OkReply := HttpReply("OK", 200)
  const BadRequestReply := HttpReply("BAD REQUEST", 400)

  /** Which way the webhook handler left. `Swallowed` is the exception handler
      followed by the trailing return; `FellThrough` is that trailing return
      reached without an exception. */
  datatype Exit =
    | NotJson
    | IgnoredUnknown
    | AnsweredText
    | AnsweredDocument
    | Swallowed(error: Exception)
    | FellThrough

  /** The webhook handler's return value (`None` when it returns nothing), its
      exit, and the calls it made. */
  datatype Handled = Handled(reply: Option<HttpReply>, exit: Exit, calls: seq<Call>)

  /** Sends a generated reply to the sender; an exception raised while generating
      or sending it is swallowed. */
  function Deliver(senderId: Json, response: Step<Json>, exit: Exit, env: Env): (r: Handled)
    requires !exit.Swallowed? && !exit.FellThrough?
    ensures r.reply == Some(OkReply)
    ensures response.result.Err? ==> r == Handled(Some(OkReply), Swallowed(response.result.error), response.calls)
    ensures response.result.Ok? ==>
              && r.calls == response.calls + [SendMessage(senderId, response.result.value)]
              && (r.exit == exit <==> env.sendMessage(senderId, response.result.value).Ok?)
              && (r.exit != exit ==> r.exit == Swallowed(env.sendMessage(senderId, response.result.value).error))
  {
    match response.result
    case Err(e) => Handled(Some(OkReply), Swallowed(e), response.calls)
    case Ok(text) =>
      var calls := response.calls + [SendMessage(senderId, text)];
      match env.sendMessage(senderId, text)
      case Err(e) => Handled(Some(OkReply), Swallowed(e), calls)
      case Ok(_) => Handled(Some(OkReply), exit, calls)
  }

  /** The Telegram webhook. A JSON update is always acknowledged with OK,
      whatever fails while handling it; a non-JSON request gets no return value.
      An unknown update is acknowledged without calling anything; text takes
      precedence over a document. */
  function TelegramApi(req: Request, env: Env): (r: Handled)
    ensures req.isJson <==> r.reply == Some(OkReply)
    ensures !req.isJson ==> r == Handled(None, NotJson, [])
    // the trailing return is only reached through the exception handler
    ensures r.exit != FellThrough
    ensures req.isJson && ProcessTelegramData(req.body).Err? ==>
              r == Handled(Some(OkReply), Swallowed(ProcessTelegramData(req.body).error), [])
    ensures req.isJson && ProcessTelegramData(req.body).Ok? && ProcessTelegramData(req.body).value.isUnknown ==>
              r == Handled(Some(OkReply), IgnoredUnknown, [])
    ensures r.exit == AnsweredText ==> ProcessTelegramData(req.body).Ok? && ProcessTelegramData(req.body).value.isText
    ensures r.exit == AnsweredDocument ==>
              ProcessTelegramData(req.body).Ok? && ProcessTelegramData(req.body).value.isDocument
              && !ProcessTelegramData(req.body).value.isText
  {
    if !req.isJson then
      Handled(None, NotJson, [])
    else
      match ProcessTelegramData(req.body)
      case Err(e) => Handled(Some(OkReply), Swallowed(e), [])
      case Ok(data) =>
        if data.isUnknown then
          Handled(Some(OkReply), IgnoredUnknown, [])
        else if data.isText then
          Deliver(data.senderId, GenerateTextResponse(data.text, env), AnsweredText, env)
        else if data.isDocument then
          Deliver(data.senderId, GenerateFileResponse(data.fileId, data.mimeType, data.senderId, env), AnsweredDocument, env)
        else
          Handled(Some(OkReply), FellThrough, [])
  }

  /** Text takes precedence: when an update has text, with or without a
      document, only `qa` and the one reply are called on, never a download or
      the indexer, and the only message sent is the text reply. */
  lemma TextTakesPrecedence(req: Request, env: Env)
    requires req.isJson && ProcessTelegramData(req.body).Ok? && ProcessTelegramData(req.body).value.isText
    ensures var data := ProcessTelegramData(req.body).value;
            var response := GenerateTextResponse(data.text, env);
            var r := TelegramApi(req, env);
            && (forall c :: c in r.calls ==> c.Qa? || c.SendMessage?)
            && Outbox(r.calls) == if response.result.Ok? then [Message(data.senderId, response.result.value)] else []
  {
    var data := ProcessTelegramData(req.body).value;
    var response := GenerateTextResponse(data.text, env);
    var r := TelegramApi(req, env);
    SilentOutbox(response.calls);
    if response.result.Ok? {
      OutboxAppend(response.calls, [SendMessage(data.senderId, response.result.value)]);
    }
  }

  /** A document-only update sends the "processing" announcement when the file
      was accepted and downloaded, then, unless something raised first, the
      document reply itself, all addressed to the sender. */
  lemma DocumentReply(req: Request, env: Env)
    requires req.isJson && ProcessTelegramData(req.body).Ok?
    requires ProcessTelegramData(req.body).value.isDocument && !ProcessTelegramData(req.body).value.isText
    ensures var data := ProcessTelegramData(req.body).value;
            var response := GenerateFileResponse(data.fileId, data.mimeType, data.senderId, env);
            var r := TelegramApi(req, env);
            Outbox(r.calls) ==
              (if AcceptsPdf(data.mimeType) && Downloaded(data.fileId, env) then [Message(data.senderId, JStr(Processing))] else [])
              + (if response.result.Ok? then [Message(data.senderId, response.result.value)] else [])
  {
    var data := ProcessTelegramData(req.body).value;
    var response := GenerateFileResponse(data.fileId, data.mimeType, data.senderId, env);
    FileResponseOutbox(data.fileId, data.mimeType, data.senderId, env);
    if response.result.Ok? {
      OutboxAppend(response.calls, [SendMessage(data.senderId, response.result.value)]);
    }
  }

  /** Every webhook request sends at most two messages, all to the update's
      sender, and two only for a PDF that reached the indexing block. */
  lemma AtMostTwoMessages(req: Request, env: Env)
    ensures var r := TelegramApi(req, env);
            && |Outbox(r.calls)| <= 2
            && (Outbox(r.calls) != [] ==>
                  ProcessTelegramData(req.body).Ok?
                  && forall m :: m in Outbox(r.calls) ==> m.chatId == ProcessTelegramData(req.body).value.senderId)
            && (|Outbox(r.calls)| == 2 ==>
                  var data := ProcessTelegramData(req.body).value;
                  !data.isText && data.isDocument && AcceptsPdf(data.mimeType) && Downloaded(data.fileId, env))
  {
    if req.isJson && ProcessTelegramData(req.body).Ok? {
      var data := ProcessTelegramData(req.body).value;
      if data.isText {
        TextTakesPrecedence(req, env);
      } else if data.isDocument {
        DocumentReply(req, env);
      }
    }
  }

  /** A message with text and a document lacking its `file_id` raises before the
      text is answered, so nothing at all is called or sent. */
  lemma MalformedDocumentSilencesText(req: Request, env: Env)
    requires req.isJson && HasMessage(req.body) && SenderReadable(MessageOf(req.body))
    requires "text" in MessageOf(req.body).fields && "document" in MessageOf(req.body).fields
    requires MessageOf(req.body).fields["document"].JObj?
    requires "file_id" !in MessageOf(req.body).fields["document"].fields
    ensures TelegramApi(req, env) == Handled(Some(OkReply), Swallowed(KeyError("file_id")), [])
  {
  }

  // ---------------------------------------------------------------------------
  // Setup endpoints
  // ---------------------------------------------------------------------------

  /** Registers the webhook from the body's `url` and `secret_token`. */
  function SetTelegramWebhook(req: Request, env: Env): (r: Step<HttpReply>)
    ensures !req.isJson ==> r == Step(Ok(BadRequestReply), [])
    ensures r.result == Ok(OkReply) <==>
              && req.isJson && Subscript(req.body, "url").Ok? && Subscript(req.body, "secret_token").Ok?
              && env.setWebhook(req.body.fields["url"], req.body.fields["secret_token"]) == Ok(true)
    ensures r.result == Ok(BadRequestReply) <==>
              || !req.isJson
              || (&& Subscript(req.body, "url").Ok? && Subscript(req.body, "secret_token").Ok?
                  && env.setWebhook(req.body.fields["url"], req.body.fields["secret_token"]) == Ok(false))
    ensures r.result.Ok? ==> r.result.value == OkReply || r.result.value == BadRequestReply
    ensures req.isJson && !req.body.JObj? ==> r == Step(Err(TypeError), [])
    ensures req.isJson && req.body.JObj? && "url" !in req.body.fields ==> r == Step(Err(KeyError("url")), [])
    ensures req.isJson && req.body.JObj? && "url" in req.body.fields && "secret_token" !in req.body.fields ==>
              r == Step(Err(KeyError("secret_token")), [])
    ensures r.result.Err? <==>
              && req.isJson
              && (|| Subscript(req.body, "url").Err? || Subscript(req.body, "secret_token").Err?
                  || env.setWebhook(req.body.fields["url"], req.body.fields["secret_token"]).Err?)
    ensures req.isJson && Subscript(req.body, "url").Ok? && Subscript(req.body, "secret_token").Ok?
            && env.setWebhook(req.body.fields["url"], req.body.fields["secret_token"]).Err? ==>
              r.result == Err(env.setWebhook(req.body.fields["url"], req.body.fields["secret_token"]).error)
    ensures r.calls != [] <==> req.isJson && Subscript(req.body, "url").Ok? && Subscript(req.body, "secret_token").Ok?
  {
    if !req.isJson then
      Step(Ok(BadRequestReply), [])
    else
      match Subscript(req.body, "url")
      case Err(e) => Step(Err(e), [])
      case Ok(url) =>
        match Subscript(req.body, "secret_token")
        case Err(e) => Step(Err(e), [])
        case Ok(secretToken) =>
          var calls := [SetWebhook(url, secretToken)];
          match env.setWebhook(url, secretToken)
          case Err(e) => Step(Err(e), calls)
          case Ok(flag) => Step(Ok(if flag then OkReply else BadRequestReply), calls)
  }

  /** Installs the command menu from the body's `commands`. */
  function SetTelegramMenuCommands(req: Request, env: Env): (r: Step<HttpReply>)
    ensures !req.isJson ==> r == Step(Ok(BadRequestReply), [])
    ensures r.result == Ok(OkReply) <==>
              req.isJson && Subscript(req.body, "commands").Ok?
              && env.setMenuCommands(req.body.fields["commands"]) == Ok(true)
    ensures r.result == Ok(BadRequestReply) <==>
              || !req.isJson
              || (Subscript(req.body, "commands").Ok? && env.setMenuCommands(req.body.fields["commands"]) == Ok(false))
    ensures r.result.Ok? ==> r.result.value == OkReply || r.result.value == BadRequestReply
    ensures req.isJson && !req.body.JObj? ==> r == Step(Err(TypeError), [])
    ensures req.isJson && req.body.JObj? && "commands" !in req.body.fields ==> r == Step(Err(KeyError("commands")), [])
    ensures r.result.Err? <==>
              req.isJson && (Subscript(req.body, "commands").Err? || env.setMenuCommands(req.body.fields["commands"]).Err?)
    ensures req.isJson && Subscript(req.body, "commands").Ok? && env.setMenuCommands(req.body.fields["commands"]).Err? ==>
              r.result == Err(env.setMenuCommands(req.body.fields["commands"]).error)
    ensures r.calls != [] <==> req.isJson && Subscript(req.body, "commands").Ok?
  {
    if !req.isJson then
      Step(Ok(BadRequestReply), [])
    else
      match Subscript(req.body, "commands")
      case Err(e) => Step(Err(e), [])
      case Ok(commands) =>
        var calls := [SetMenuCommands(commands)];
        match env.setMenuCommands(commands)
        case Err(e) => Step(Err(e), calls)
        case Ok(flag) => Step(Ok(if flag then OkReply else BadRequestReply), calls)
  }
}
