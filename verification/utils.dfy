/**
 The bot's helper layer: classifying an inbound Telegram update, answering a
 text message (fixed commands or the question-answering chain), and ingesting
 an uploaded document (MIME gate, download, indexing).
 */
module Utils {
  import opened JsonValues
  import opened Collaborators

  /** The classification of one Telegram update. The three flags and the four
      extracted fields are exactly those of the dict the bot builds. */
  datatype TelegramData = TelegramData(
    isText: bool,
    isDocument: bool,
    isUnknown: bool,
    senderId: Json,
    text: Json,
    fileId: Json,
    mimeType: Json)

  const StartReply := "Hi, I can help you with saving your data to the cloud and retive it, I can also help you with your questions."
  const FileReply := "Select the pdf document file that you want to query."
  const HelpReply := "I am an AI and I am here to help you. You can upload PDF files and once uploaded, you can query them."
  const TechnicalIssue := "We are facing some technical issue."
  const PdfOnly := "The bot can only understand PDF files at this moment."
  const Processing := "Processing the file and generating the knowledge..."
  const FileSaved := "File saved successfully."
  const SavingIssue := "We are facing some technical issue at saving the file."

  /** The fixed commands and their replies. */
  const Commands: map<string, string> := map["/start" := StartReply, "/file" := FileReply, "/help" := HelpReply]

  // ---------------------------------------------------------------------------
  // Classifying an update
  // ---------------------------------------------------------------------------

  /** The update carries a message. */
  predicate HasMessage(data: Json) {
    data.JObj? && "message" in data.fields
  }

  function MessageOf(data: Json): Json
    requires HasMessage(data)
  {
    data.fields["message"]
  }

  /** A message object whose sender id can be read without raising. */
  predicate SenderReadable(message: Json) {
    && message.JObj?
    && "from" in message.fields
    && message.fields["from"].JObj?
    && "id" in message.fields["from"].fields
  }

  /** A message from which the sender, and the document fields when a document
      is attached, can be read without raising. */
  predicate Readable(message: Json) {
    && SenderReadable(message)
    && ("document" in message.fields ==>
          var document := message.fields["document"];
          document.JObj? && "file_id" in document.fields && "mime_type" in document.fields)
  }

  /** Classifies a decoded update. An update without a message is unknown and
      all its fields are empty; a message always yields its sender, and the text
      and document flags are set independently of each other. */
  function ProcessTelegramData(data: Json): (r: Result<TelegramData>)
    // the flag invariant
    ensures r.Ok? ==> (r.value.isUnknown <==> !r.value.isText && !r.value.isDocument)
    // only a dict has .keys()
    ensures !data.JObj? ==> r == Err(AttributeError)
    // no message: unknown, with every field the empty string
    ensures data.JObj? && "message" !in data.fields ==>
              && r.Ok? && r.value.isUnknown && !r.value.isText && !r.value.isDocument
              && r.value.senderId == JStr("") && r.value.text == JStr("")
              && r.value.fileId == JStr("") && r.value.mimeType == JStr("")
    // a message is classified exactly when it is readable
    ensures HasMessage(data) ==> (r.Ok? <==> Readable(MessageOf(data)))
    ensures HasMessage(data) && Readable(MessageOf(data)) ==>
              var message := MessageOf(data).fields;
              && r.Ok?
              && r.value.senderId == message["from"].fields["id"]
              && (r.value.isText <==> "text" in message)
              && r.value.text == (if "text" in message then message["text"] else JStr(""))
              && (r.value.isDocument <==> "document" in message)
              && r.value.fileId == (if "document" in message then message["document"].fields["file_id"] else JStr(""))
              && r.value.mimeType == (if "document" in message then message["document"].fields["mime_type"] else JStr(""))
    // the errors a malformed message raises
    ensures HasMessage(data) && !MessageOf(data).JObj? ==> r == Err(TypeError)
    ensures HasMessage(data) && MessageOf(data).JObj? && "from" !in MessageOf(data).fields ==>
              r == Err(KeyError("from"))
    ensures HasMessage(data) && SenderReadable(MessageOf(data)) && "document" in MessageOf(data).fields ==>
              var document := MessageOf(data).fields["document"];
              && (!document.JObj? ==> r == Err(TypeError))
              && (document.JObj? && "file_id" !in document.fields ==> r == Err(KeyError("file_id")))
  {
    var keys :- Keys(data);
    var blank := TelegramData(false, false, true, JStr(""), JStr(""), JStr(""), JStr(""));
    if "message" !in keys then
      Ok(blank)
    else
      var message := data.fields["message"];
      var from :- Subscript(message, "from");
      var senderId :- Subscript(from, "id");
      var fields := message.fields;
      var withSender := blank.(senderId := senderId);
      var withText :=
        if "text" in fields then withSender.(text := fields["text"], isText := true, isUnknown := false)
        else withSender;
      if "document" in fields then
        var fileId :- Subscript(fields["document"], "file_id");
        var mimeType :- Subscript(fields["document"], "mime_type");
        Ok(withText.(fileId := fileId, mimeType := mimeType, isDocument := true, isUnknown := false))
      else
        Ok(withText)
  }

  // ---------------------------------------------------------------------------
  // Answering text
  // ---------------------------------------------------------------------------

  /** The text is, character for character, one of the fixed commands. */
  predicate IsCommand(text: Json) {
    text.JStr? && text.s in Commands
  }

  /** The argument handed to `qa`: the question and an empty chat history. */
  function QaInput(question: Json): Json {
    JObj(map["question" := question, "chat_history" := JObj(map[])])
  }

  /** The answer the bot takes from a `qa` result, or the fixed apology when the
      result has no `answer` entry. */
  function AnswerOf(result: Json): Json {
    if result.JObj? && "answer" in result.fields then result.fields["answer"] else JStr(TechnicalIssue)
  }

  /** Replies to a text message. A fixed command is answered from the command
      table without calling anything; every other text is put to `qa` as the
      question, with an empty history. */
  function GenerateTextResponse(text: Json, env: Env): (r: Step<Json>)
    ensures IsCommand(text) ==> r == Step(Ok(JStr(Commands[text.s])), [])
    ensures !IsCommand(text) ==> r.calls == [Qa(QaInput(text))]
    ensures !IsCommand(text) ==>
              match env.qa(QaInput(text))
              case Err(e) => r.result == Err(e)
              case Ok(result) => r.result == Ok(AnswerOf(result))
  {
    if text == JStr("/start") then
      Step(Ok(JStr(StartReply)), [])
    else if text == JStr("/file") then
      Step(Ok(JStr(FileReply)), [])
    else if text == JStr("/help") then
      Step(Ok(JStr(HelpReply)), [])
    else
      var input := JObj(map["question" := text, "chat_history" := JObj(map[])]);
      var calls := [Qa(input)];
      match env.qa(input)
      case Err(e) => Step(Err(e), calls)
      case Ok(result) =>
        match Subscript(result, "answer")
        case Ok(answer) => Step(Ok(answer), calls)
        case Err(_) => Step(Ok(JStr(TechnicalIssue)), calls)
  }

  /** Matching is exact: a command with a trailing space, or in another case, is
      a question for `qa`. */
  lemma NearCommandsGoToQa(env: Env)
    ensures GenerateTextResponse(JStr("/start "), env).calls == [Qa(QaInput(JStr("/start ")))]
    ensures GenerateTextResponse(JStr("/HELP"), env).calls == [Qa(QaInput(JStr("/HELP")))]
  {
    assert JStr("/start ") != JStr("/start") by { assert |"/start "| != |"/start"|; }
    assert "/HELP"[1] != "/help"[1];
  }

  // ---------------------------------------------------------------------------
  // Ingesting a document
  // ---------------------------------------------------------------------------

  /** The MIME type passes the gate: `'pdf' in mime_type` holds. */
  predicate AcceptsPdf(mimeType: Json) {
    Contains(mimeType, "pdf") == Ok(true)
  }

  /** Both download steps returned status 1. */
  predicate Downloaded(fileId: Json, env: Env) {
    && env.getFilePath(fileId).Ok?
    && env.getFilePath(fileId).value.status == 1
    && env.saveFile(env.getFilePath(fileId).value.filePath).Ok?
    && env.saveFile(env.getFilePath(fileId).value.filePath).value.status == 1
  }

  /** The temporary file a completed download was written to. */
  function LocalPath(fileId: Json, env: Env): string
    requires Downloaded(fileId, env)
  {
    env.saveFile(env.getFilePath(fileId).value.filePath).value.localPath
  }

  /** A download step returned normally but with a status other than 1. */
  predicate DownloadDeclined(fileId: Json, env: Env) {
    && env.getFilePath(fileId).Ok?
    && (env.getFilePath(fileId).value.status != 1
        || (env.saveFile(env.getFilePath(fileId).value.filePath).Ok?
            && env.saveFile(env.getFilePath(fileId).value.filePath).value.status != 1))
  }

  /** A download step raised. */
  predicate DownloadRaised(fileId: Json, env: Env) {
    || env.getFilePath(fileId).Err?
    || (env.getFilePath(fileId).value.status == 1
        && env.saveFile(env.getFilePath(fileId).value.filePath).Err?)
  }

  /** Announcing, indexing and deleting the downloaded file all completed. */
  predicate Indexed(fileId: Json, senderId: Json, env: Env)
    requires Downloaded(fileId, env)
  {
    && env.sendMessage(senderId, JStr(Processing)).Ok?
    && env.createIndex(LocalPath(fileId, env)).Ok?
    && env.unlink(LocalPath(fileId, env)).Ok?
  }

  /** The guarded block: announce, index, delete; any exception in it becomes
      the fixed saving-error reply. */
  function IndexLocalFile(localPath: string, senderId: Json, env: Env): (r: Step<Json>)
    ensures r.result.Ok?
    ensures r.result == Ok(JStr(FileSaved)) <==>
              env.sendMessage(senderId, JStr(Processing)).Ok? && env.createIndex(localPath).Ok? && env.unlink(localPath).Ok?
    ensures r.result != Ok(JStr(FileSaved)) ==> r.result == Ok(JStr(SavingIssue))
    ensures 1 <= |r.calls| <= 3 && r.calls[0] == SendMessage(senderId, JStr(Processing))
    ensures forall k :: 1 <= k < |r.calls| ==> r.calls[k] in [CreateIndex(localPath), Unlink(localPath)]
  {
    var announce := [SendMessage(senderId, JStr(Processing))];
    match env.sendMessage(senderId, JStr(Processing))
    case Err(_) => Step(Ok(JStr(SavingIssue)), announce)
    case Ok(_) =>
      var indexing := announce + [CreateIndex(localPath)];
      match env.createIndex(localPath)
      case Err(_) => Step(Ok(JStr(SavingIssue)), indexing)
      case Ok(_) =>
        var unlinking := indexing + [Unlink(localPath)];
        match env.unlink(localPath)
        case Err(_) => Step(Ok(JStr(SavingIssue)), unlinking)
        case Ok(_) => Step(Ok(JStr(FileSaved)), unlinking)
  }

  /** Replies to an uploaded document. Anything whose MIME type does not contain
      "pdf" is refused without calling anything; otherwise the file is located
      and downloaded, and only when both steps report status 1 is it indexed.
      A download step that reports another status makes the reply `None`. */
  function GenerateFileResponse(fileId: Json, mimeType: Json, senderId: Json, env: Env): (r: Step<Json>)
    // the MIME gate
    ensures r.result == Ok(JStr(PdfOnly)) <==> Contains(mimeType, "pdf") == Ok(false)
    ensures mimeType.JStr? ==> (r.result == Ok(JStr(PdfOnly)) <==> !exists i :: Occurs("pdf", mimeType.s, i))
    ensures r.calls == [] <==> !AcceptsPdf(mimeType)
    // the status chain
    ensures r.result == Ok(JNull) <==> AcceptsPdf(mimeType) && DownloadDeclined(fileId, env)
    ensures r.result.Err? <==> Contains(mimeType, "pdf").Err? || (AcceptsPdf(mimeType) && DownloadRaised(fileId, env))
    // the guarded block
    ensures r.result == Ok(JStr(FileSaved)) <==>
              AcceptsPdf(mimeType) && Downloaded(fileId, env) && Indexed(fileId, senderId, env)
    ensures r.result == Ok(JStr(SavingIssue)) <==>
              AcceptsPdf(mimeType) && Downloaded(fileId, env) && !Indexed(fileId, senderId, env)
  {
    match Contains(mimeType, "pdf")
    case Err(e) => Step(Err(e), [])
    case Ok(isPdf) =>
      if !isPdf then
        Step(Ok(JStr(PdfOnly)), [])
      else
        var lookup := [GetFilePath(fileId)];
        match env.getFilePath(fileId)
        case Err(e) => Step(Err(e), lookup)
        case Ok(filePath) =>
          if filePath.status != 1 then
            Step(Ok(JNull), lookup)
          else
            var download := lookup + [SaveFile(filePath.filePath)];
            match env.saveFile(filePath.filePath)
            case Err(e) => Step(Err(e), download)
            case Ok(localFile) =>
              if localFile.status != 1 then
                Step(Ok(JNull), download)
              else
                var indexing := IndexLocalFile(localFile.localPath, senderId, env);
                Step(indexing.result, download + indexing.calls)
  }

  /** The only message a document reply sends itself is the "processing"
      announcement, and only once the file is accepted and downloaded. */
  lemma FileResponseOutbox(fileId: Json, mimeType: Json, senderId: Json, env: Env)
    ensures Outbox(GenerateFileResponse(fileId, mimeType, senderId, env).calls) ==
              if AcceptsPdf(mimeType) && Downloaded(fileId, env) then [Message(senderId, JStr(Processing))] else []
  {
    var r := GenerateFileResponse(fileId, mimeType, senderId, env);
    if AcceptsPdf(mimeType) && Downloaded(fileId, env) {
      var path := env.getFilePath(fileId).value.filePath;
      var indexing := IndexLocalFile(LocalPath(fileId, env), senderId, env);
      assert r.calls == [GetFilePath(fileId), SaveFile(path)] + indexing.calls;
      OutboxAppend([GetFilePath(fileId), SaveFile(path)], indexing.calls);
      assert indexing.calls == [indexing.calls[0]] + indexing.calls[1..];
      OutboxAppend([indexing.calls[0]], indexing.calls[1..]);
      SilentOutbox(indexing.calls[1..]);
    } else {
      SilentOutbox(r.calls);
    }
  }
}
