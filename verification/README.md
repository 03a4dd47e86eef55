# Document-GPT Telegram bot: event classification and reply routing

This project models the request-handling core of a Telegram bot that answers questions about uploaded PDF documents. It covers two things:

- the helper layer in `document_gpt/helper/utils.py`, which classifies an inbound update, answers text and ingests a document;
- the Flask handlers in `document_gpt/src/main.py`, which route an update to one reply and register the webhook and the command menu.

Modules:

- `JsonValues` (`json_values.dfy`) holds the decoded JSON request body, a recursive `Json` datatype. It also holds the Python semantics the code relies on:
  - `d[k]` raises `KeyError` on a dict without the key and `TypeError` on anything else;
  - `d.keys()` raises `AttributeError` on anything but a dict;
  - `'pdf' in x` is a substring test on a string, element equality on a list and key membership on a dict, and raises `TypeError` otherwise.

  Exceptions are values (`Result`), so the handlers' `try`/`except` blocks become matches.
- `Collaborators` (`collaborators.dfy`) covers every external call: `qa`, `get_file_path`, `save_file_and_get_local_path`, `send_message`, `create_index`, `os.unlink`, `set_webhook` and `set_menu_commands`.
  - Each call is an uninterpreted outcome in an `Env` record. For each argument, the outcome either returns a value or raises.
  - Every call a handler makes is recorded as a `Call`.
  - `Outbox` lists the messages a handler tried to send.
- `Utils` (`utils.dfy`) holds `process_telegram_data`, `generate_text_response` and `generate_file_response`.
- `App` (`main.dfy`) holds `telegram_api`, `set_telegram_webhook` and `set_telegram_menu_commands`. A Flask request becomes `Request(isJson, body)`. The webhook handler's result records which exit it took, so the claim that the trailing `return 'OK', 200` runs only after a swallowed exception is stated and proved (`exit != FellThrough`).

Three behaviours of the code worth knowing:

- `process_telegram_data` sets `is_text` and `is_document` independently (document_gpt/helper/utils.py:24-32), and `telegram_api` answers the text first (document_gpt/src/main.py:24-32). An update with both is answered as text.
- A document reply can send two messages. `generate_file_response` itself sends "Processing the file…" before indexing (document_gpt/helper/utils.py:86), and `telegram_api` then sends the reply.
- When a download step reports a status other than 1, `generate_file_response` returns `None` (document_gpt/helper/utils.py:81-91). `telegram_api` then hands that `None` to `send_message`; it is not turned into a failure message.

## Model

| member | source | states |
|---|---|---|
| `JsonValues.Subscript` | document_gpt/helper/utils.py:22-23 | `d[k]` yields the entry exactly when `d` is a dict holding `k`; raises `KeyError(k)` on a dict without it and `TypeError` on any other value |
| `JsonValues.Keys` | document_gpt/helper/utils.py:21 | `.keys()` succeeds exactly on a dict and returns its key set; otherwise `AttributeError` |
| `JsonValues.HasSubstring` | document_gpt/helper/utils.py:76 | the scan answers true exactly when the needle occurs at some index of the string (an independent `exists` definition, proved by induction over the scan) |
| `JsonValues.Contains` | document_gpt/helper/utils.py:76 | `'pdf' in x`: substring occurrence on a string, equal element on a list, key on a dict. It raises, and then always `TypeError`, exactly on null, bool and int |
| `Utils.ProcessTelegramData` | document_gpt/helper/utils.py:10-42 | `is_unknown` holds iff neither `is_text` nor `is_document`. A non-dict update raises `AttributeError`. No `message` gives unknown with all four fields `''`. With a message, classification succeeds iff the sender id, and the document's `file_id`/`mime_type` when present, are readable. The sender is read even for an unknown message. `is_text` iff `text` is present and `is_document` iff `document` is present, set independently with their fields copied. A non-dict message raises `TypeError`, a missing `from` raises `KeyError('from')`, and a document without `file_id` raises `KeyError('file_id')` |
| `Utils.GenerateTextResponse` | document_gpt/helper/utils.py:45-71 | exactly the three commands `/start`, `/file`, `/help` (string equality) get their fixed replies with no call. Any other text makes exactly one `qa` call with the text as question and an empty chat history. An exception from `qa` propagates. Otherwise the reply is `result['answer']` when present, else the fixed technical-issue string |
| `Utils.NearCommandsGoToQa` | document_gpt/helper/utils.py:47-52 | `'/start '` (trailing space) and `'/HELP'` are not commands: each is sent to `qa` |
| `Utils.IndexLocalFile` | document_gpt/helper/utils.py:85-91 | the guarded block never raises. It answers "File saved successfully." iff the announcement, `create_index` and the unlink all completed, and the saving-error string otherwise. Its first call is always the announcement to the sender |
| `Utils.GenerateFileResponse` | document_gpt/helper/utils.py:74-91 | the PDF-only refusal is returned iff `'pdf' in mime_type` is false (for a string: iff "pdf" occurs nowhere in it), and no collaborator is called iff the MIME type is not accepted. The reply is `None` iff the type is accepted and a download step returned a status other than 1. An exception escapes iff the MIME test raised, or a download step raised. Success iff accepted, downloaded and fully indexed. Saving-error string iff accepted, downloaded and not fully indexed |
| `Utils.FileResponseOutbox` | document_gpt/helper/utils.py:84-89 | the document reply itself sends exactly one message, the "processing" announcement to the sender, when the file is accepted and downloaded, and none otherwise |
| `App.Deliver` | document_gpt/src/main.py:24-34 | the generated reply is sent to the sender after the calls that produced it. An exception in generating or sending it is swallowed into OK |
| `App.TelegramApi` | document_gpt/src/main.py:15-35 | a JSON request is always answered `('OK', 200)`, and a non-JSON one returns nothing and calls nothing. The trailing return is never reached without an exception. A classification error is swallowed with no call. An unknown update is acknowledged with no call. The text exit implies the update has text. The document exit implies it has a document and no text |
| `App.TextTakesPrecedence` | document_gpt/src/main.py:24-27 | for an update with text, with or without a document, only `qa` and `send_message` are called. The only message sent is the text reply, to the sender |
| `App.DocumentReply` | document_gpt/src/main.py:28-32 | for a document-only update, the messages sent are the announcement (when accepted and downloaded), then the document reply (unless something raised first) |
| `App.AtMostTwoMessages` | document_gpt/src/main.py:20-35 | a webhook request sends at most two messages, all to the update's sender. Two only for a document-only PDF that was downloaded |
| `App.MalformedDocumentSilencesText` | document_gpt/helper/utils.py:24-30 | for every JSON update whose message has a readable sender, a text and a dict document lacking `file_id`: `KeyError('file_id')` is raised before the text is answered. The handler acknowledges with OK, calls nothing and sends nothing |
| `App.SetTelegramWebhook` | document_gpt/src/main.py:38-48 | the only replies are `('OK', 200)` and `('BAD REQUEST', 400)`. OK iff the request is JSON with `url` and `secret_token` and `set_webhook` returns true. BAD REQUEST iff not JSON, or `set_webhook` returns false. An exception escapes iff the request is JSON and a field read fails or `set_webhook` raises. A non-dict body raises `TypeError`. A missing `url` raises `KeyError('url')`. A missing `secret_token` raises `KeyError('secret_token')`. An exception from `set_webhook` escapes unchanged. `set_webhook` is called iff both fields were read |
| `App.SetTelegramMenuCommands` | document_gpt/src/main.py:51-61 | the only replies are `('OK', 200)` and `('BAD REQUEST', 400)`. OK iff the request is JSON with `commands` and `set_menu_commands` returns true. BAD REQUEST iff not JSON, or it returns false. An exception escapes iff the request is JSON and reading `commands` fails or the collaborator raises. A non-dict body raises `TypeError`. A missing `commands` raises `KeyError('commands')`. The collaborator's exception escapes unchanged. The collaborator is called iff the field was read |

## Left out

- `document_gpt/helper/telegram_api.py`: the HTTP calls to the Telegram Bot API, the temporary-file writing and the `uuid` naming. Each function is an uninterpreted outcome in `Collaborators.Env`. `get_file_path` and `save_file_and_get_local_path` are reduced to their `status` and path fields.
- `qa`, `create_index` and the conversation and indexing modules they come from (`document_gpt.helper.conversation`, `document_gpt.helper.create_index`): these are not part of this model. Their results and exceptions are parameters.
- `os.unlink` and `send_message` are modelled only as calls that return or raise. What they do to the file system or the chat is not modelled.
- Collaborators are deterministic functions of their arguments. A network call that succeeds once and fails on an identical later call is not modelled. No handler repeats a call with identical arguments, so no modelled path depends on this.
- Exception types: a collaborator may raise any exception, and no modelled code inspects which. `telegram_api` swallows every exception in its `try` block. `set_telegram_webhook` and `set_telegram_menu_commands` let them escape. In `generate_text_response`, an exception from `qa` escapes; only the `result['answer']` lookup is guarded.
- Flask plumbing: application setup, route decorators, the `home` route, `print(data)`, and `request.get_json()` raising on a malformed body. Also left out is Flask turning a `None` return or an escaped exception into an error response. The model reports `None` and the exception as they leave the handler.
- JSON floating-point numbers are not modelled (`Json` has integers only). Python's `True == 1` coercion is not modelled either; no comparison in the core depends on it, because the statuses are integers.
- `config/config.py`: environment loading and two constant paths, with no logic.
