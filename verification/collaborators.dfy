/**
 The external collaborators the request handlers call: the Telegram Bot API
 wrappers (`get_file_path`, `save_file_and_get_local_path`, `send_message`,
 `set_webhook`, `set_menu_commands`), the question-answering chain `qa`, the
 indexer `create_index` and `os.unlink`. Their behaviour is not modelled: an
 `Env` fixes, for every argument, whether the call returns (and what) or raises.
 Every call a handler makes is recorded, in order, as a `Call`.
 */
module Collaborators {
  import opened JsonValues

  /** What `get_file_path` returns: status 1 and the remote path on success. */
  datatype FileLookup = FileLookup(status: int, filePath: string)

  /** What `save_file_and_get_local_path` returns: status 1 and the path of the
      downloaded temporary file on success. */
  datatype SavedFile = SavedFile(status: int, localPath: string)

  /** One call to a collaborator, with its arguments. */
  datatype Call =
    | Qa(input: Json)
    | GetFilePath(fileId: Json)
    | SaveFile(filePath: string)
    | SendMessage(chatId: Json, message: Json)
    | CreateIndex(localPath: string)
    | Unlink(localPath: string)
    | SetWebhook(url: Json, secretToken: Json)
    | SetMenuCommands(commands: Json)

  /** The outcome of every collaborator call, as a function of its arguments. */
  datatype Env = Env(
    qa: Json -> Result<Json>,
    getFilePath: Json -> Result<FileLookup>,
    saveFile: string -> Result<SavedFile>,
    sendMessage: (Json, Json) -> Result<bool>,
    createIndex: string -> Result<()>,
    unlink: string -> Result<()>,
    setWebhook: (Json, Json) -> Result<bool>,
    setMenuCommands: Json -> Result<bool>)

  /** A handler's result together with the calls it made to get there. */
  datatype Step<+T> = Step(result: Result<T>, calls: seq<Call>)

  /** A message handed to `send_message`. */
  datatype Message = Message(chatId: Json, text: Json)

  /** The messages a sequence of calls tried to send, in order. */
  function Outbox(calls: seq<Call>): (r: seq<Message>)
    ensures |r| <= |calls|
    ensures forall m :: m in r ==> SendMessage(m.chatId, m.text) in calls
  {
    if calls == [] then []
    else
      var rest := Outbox(calls[1..]);
      match calls[0]
      case SendMessage(chatId, message) => [Message(chatId, message)] + rest
      case _ => rest
  }

  /** Sending is compositional: the outbox of two call sequences in a row is the
      outbox of the first followed by that of the second. */
  lemma {:induction false} OutboxAppend(a: seq<Call>, b: seq<Call>)
    ensures Outbox(a + b) == Outbox(a) + Outbox(b)
    decreases |a|
  {
    if a == [] {
      assert a + b == b;
    } else {
      assert (a + b)[0] == a[0];
      assert (a + b)[1..] == a[1..] + b;
      OutboxAppend(a[1..], b);
    }
  }

  /** A call sequence with no `SendMessage` has an empty outbox. */
  lemma {:induction false} SilentOutbox(calls: seq<Call>)
    requires forall c :: c in calls ==> !c.SendMessage?
    ensures Outbox(calls) == []
    decreases |calls|
  {
    if calls != [] {
      assert calls[0] in calls;
      assert forall c :: c in calls[1..] ==> c in calls;
      SilentOutbox(calls[1..]);
    }
  }
}
