# BizyAir web-app node, modelled in Dafny

This project models the execution core of the ComfyUI node that runs a
BizyAir cloud "web app" (`py/bizyair_webapp.py`). The node works in these steps:

1. It reads the widget JSON and pops the `_port_map` out of it.
2. It decides whether the app is Pro (video or audio) and, if so, checks the licence.
3. It uploads every connected image batch to object storage with a signed PUT
   and writes the resulting URLs into the input values.
4. It creates a cloud task.
5. It polls the task, with a simulated progress value, until `Success`, a
   failure or the host's interruption. On any exception it tries to stop the
   task on the server.
6. It fetches the outputs if they are missing, then downloads every output
   under a deterministic file name.

The HTTP route that lists the default apps is modelled as well.

Every network reply, the host's interruption, the licence manager, the clock,
the random name parts and the HMAC-SHA1/base64 signer are inputs of the model.
The JSON the node handles is `Json.Value`. Python's falsiness, `dict.get`,
`or`, iteration and `str()` on it are `Json.Truthy`, `Json.Get`/`GetOr`,
`Json.Or`, `Json.Iterate` and `Json.Render`. A Python exception is a `None`, a
`Crash`/`Malformed` variant or a `crashed` flag, wherever it happens.

The modules follow the source:

- `Classify`: `_check_is_pro` and `_extract_error`.
- `Cancel`: `_attempt_cancellation`.
- `Oss`: `_upload_to_oss`.
- `Inputs`: the widget payload, the default-app route and the upload loop.
- `Poll`: the polling loop.
- `Results`: the outputs fallback and the downloads.
- `Lifecycle`: `execute_app` end to end.

The code that changes variables step by step is written as methods with
loops. Each method is proved equal to a specification function, and the
lemmas are about those functions:

- `Inputs.CollectDefaultApps` and `Inputs.ProcessUploads` are the route's loops and the upload loop.
- `Poll.PollTask` is the polling loop.
- `Results.DownloadResults` is the download loop.
- `Lifecycle.ExecuteApp` is `execute_app`.

## Model

| member | source | states |
|---|---|---|
| Classify.NameText | py/bizyair_webapp.py:157 | `(web_app_name or "").lower()`: a falsy name gives the empty text, a string is lower-cased, a truthy non-string raises (`None`) |
| Classify.NodeTypeText | py/bizyair_webapp.py:165 | `(node.get("node_type") or "").lower()`: a non-dict node raises; a falsy type gives the empty text; a string type is lower-cased; a truthy non-string type raises |
| Classify.ScanNodes | py/bizyair_webapp.py:163-169 | `Some(true)` exactly when some node is the first to load video or audio, with every earlier node readable and plain; `Some(false)` exactly when every node is readable and plain; `None` only if some node is unreadable |
| Classify.CheckIsPro | py/bizyair_webapp.py:151-169 | a keyword hit in the name answers Pro before `data` is looked at; a name that cannot be lower-cased raises; without a hit, a non-dict `data` raises |
| Classify.ScanExactly | py/bizyair_webapp.py:163-169 | when every node is readable, the scan answers whether some node loads video or audio |
| Classify.ProExactly | py/bizyair_webapp.py:151-169 | when nothing raises, an app is Pro exactly when its name hits a keyword or some input node loads video or audio |
| Classify.ScanOutputs | py/bizyair_webapp.py:176-183 | the first entry that reports an error with a truthy message gives that message; with no such entry and every entry a dict, the unknown-error text; it raises exactly when a non-dict entry comes before any report |
| Classify.ExtractError | py/bizyair_webapp.py:171-183 | a truthy top-level `error` wins; the outputs are scanned only when they are a non-empty list; the default text otherwise; a non-dict record raises; any message found is truthy |
| Classify.ExtractErrorSource | py/bizyair_webapp.py:171-183 | the message is truthy and is exactly one of three things: `error`, the `error_msg` of the first reporting output, or the default text |
| Classify.FirstReportExists | py/bizyair_webapp.py:179-182 | a message from the scan other than the default comes from a first reporting entry |
| Cancel.SelectSignals | py/bizyair_webapp.py:252-257 | status `Running` makes interrupt (PUT) primary and cancel (DELETE) fallback; any other status the reverse; the two are always the cancel and interrupt requests of that id |
| Cancel.CancellationAsWritten | py/bizyair_webapp.py:233-266 | the code as written: nothing without a request id, else exactly the primary request (the 404 fallback guard can never hold) |
| Cancel.Cancellation | py/bizyair_webapp.py:233-264 | the intended behaviour: nothing without a request id; else the primary first, and the fallback exactly when the primary answered 404, with the other verb |
| Cancel.AsWrittenSkipsFallback | py/bizyair_webapp.py:261-264 | on a 404 reply the code as written sends one request, the intended behaviour two |
| Cancel.AsWrittenRunning404 | py/bizyair_webapp.py:252-264 | a running task whose interrupt gets 404 is never sent the cancel request as written, and is sent it as intended |
| Cancel.AgreeUnless404 | py/bizyair_webapp.py:259-266 | on every reply other than 404 the written and intended behaviours agree |
| Oss.CanonicalLayout | py/bizyair_webapp.py:223 | the canonical string is `PUT`, an empty MD5 line, content type, date, the `x-oss-security-token:` header and `/<bucket>/<key>`, joined by line breaks |
| Oss.CanonicalLines | py/bizyair_webapp.py:223 | when no field holds a line break, the canonical string splits back into exactly those six lines |
| Oss.SignedPut | py/bizyair_webapp.py:215-228 | the PUT goes to `https://<bucket>.<endpoint>/<key>`; its Content-Length is the payload size in decimal digits; its Authorization is `OSS <id>:<signature of the canonical string under the secret>` |
| Oss.Upload | py/bizyair_webapp.py:194-231 | the token URL embeds the file name; a non-200 token reply or a code other than 20000 sends no PUT; success exactly when both checks pass and the PUT answers 200 or 201; the returned URL is the object's URL |
| Inputs.ParsePayload | py/bizyair_webapp.py:276-285 | an empty, undecodable or non-object widget leaves both values and mapping empty; `_port_map` never remains among the values |
| Inputs.PayloadSplit | py/bizyair_webapp.py:281-284 | popping `_port_map` keeps every other key's value, and the mapping is what was stored under it (`{}` when absent) |
| Inputs.DictId | py/bizyair_webapp.py:92-93 | an id is collected exactly from a dict entry that has an `id` key |
| Inputs.LegacyId | py/bizyair_webapp.py:96-100 | the legacy list also takes strings as they are and ints as their decimal text; anything else without an `id` is passed over |
| Inputs.DefaultAppIds | py/bizyair_webapp.py:82-105 | a dict `default_apps` yields the ids its categories collect; a list yields the legacy ids of its entries; a missing config, a non-dict top level, or `default_apps` of any other shape gives the empty list |
| Inputs.CategoryIdsConcat | py/bizyair_webapp.py:89-93 | the categories contribute their ids category by category, in dict order: the ids of two runs of categories joined are the ids of the first run followed by those of the second |
| Inputs.IdsOfConcat | py/bizyair_webapp.py:91-100 | collecting ids distributes over concatenation: one id per qualifying entry, in order |
| Inputs.LegacyStrings | py/bizyair_webapp.py:94-100 | a legacy list of strings yields exactly those strings, in order |
| Inputs.DictIdsFromEntries | py/bizyair_webapp.py:91-93 | every collected id is the rendered `id` of some dict entry of the list |
| Inputs.CollectIds | py/bizyair_webapp.py:91-100 | one list loop of the route appends exactly `IdsOf` of the list |
| Inputs.CollectDefaultApps | py/bizyair_webapp.py:82-105 | the route's loops produce exactly `DefaultAppIds` of the config |
| Inputs.Target | py/bizyair_webapp.py:327-328 | on a dict port map, a label is mapped exactly when it is a key holding a string, and names an unhashable variable exactly when it is a key holding a list or a dict; on a list or a string, a label found by `in` makes the subscript raise and any other is skipped; on `None`, a number or a bool the membership test raises |
| Inputs.BatchValue | py/bizyair_webapp.py:339 | several URLs are written as the list of them, one as the URL itself, none as `None` |
| Inputs.UploadImages | py/bizyair_webapp.py:333-337 | a failed batch carries a failure, never a success |
| Inputs.FirstFailureEndsBatch | py/bizyair_webapp.py:333-337 | the first image whose upload fails ends the batch with that upload's error; the PUTs sent are those of the images up to it, none for a later image |
| Inputs.BatchPuts | py/bizyair_webapp.py:333-337 | a batch sends at most one PUT per image, after those already sent |
| Inputs.BatchUrls | py/bizyair_webapp.py:333-339 | a batch that uploads fully yields one URL per image, in order, each that image's object URL, after one PUT per image |
| Inputs.StoreStep | py/bizyair_webapp.py:327-341 | one argument of the loop: a recorded upload failure is never a success, and an argument not mapped to a usable name writes nothing |
| Inputs.StoreStepKeeps | py/bizyair_webapp.py:327-341 | an argument not mapped to a name leaves the value under that name alone |
| Inputs.StoreStepWrites | py/bizyair_webapp.py:338-341 | an argument mapped to a name that does not stop the loop writes its plain value there, or the value for its fully uploaded batch's URLs |
| Inputs.StoreStepPuts | py/bizyair_webapp.py:330-337 | one argument sends at most one PUT per image of its mapped batch, after the PUTs already sent |
| Inputs.ApplyKwargs | py/bizyair_webapp.py:326-341 | a recorded upload failure is never a success; with a port map on which `in` raises, the first argument stops the loop with nothing written or sent |
| Inputs.UnhashableNameRaises | py/bizyair_webapp.py:330-341 | an argument mapped to a list or dict name stops the loop with no value written: a plain value at once with no PUT, a batch after its uploads, raising on the write exactly when every upload succeeded |
| Inputs.LastWriteWins | py/bizyair_webapp.py:326-341 | when the loop runs to the end, the argument mapped last to a variable decides its value: a plain argument's own value, or the value for its fully uploaded batch's URLs |
| Inputs.PutsOnlyForMappedImages | py/bizyair_webapp.py:326-341 | only mapped batches send PUTs, at most one per image; unmapped arguments and plain values send none |
| Inputs.UntargetedUnchanged | py/bizyair_webapp.py:326-341 | an input value that no mapped argument names keeps its value through the loop |
| Inputs.StoreArgument | py/bizyair_webapp.py:327-341 | one pass of the loop's body, with the batch uploaded by `UploadBatch`, produces exactly `StoreStep` |
| Inputs.ProcessUploads | py/bizyair_webapp.py:326-341 | the upload loop's result is exactly `ApplyKwargs` from the first argument |
| Inputs.UploadBatch | py/bizyair_webapp.py:330-337 | the image loop of one batch produces exactly `UploadImages` from the first image |
| Poll.NormalizeProgress | py/bizyair_webapp.py:414-415 | a server progress above 1.0 is read as a percentage; up to 100 it ends within 1.0 |
| Poll.NextProgress | py/bizyair_webapp.py:417-420 | `Running` takes a positive server progress as is, else climbs by at most 0.01 and stays within 0.95; `Queuing` gives 0.1, `Preparing` 0.2, any other status keeps the value; inputs in [0,1] give a result in [0,1] |
| Poll.Receive | py/bizyair_webapp.py:397-406 | a transport error or unexpected status changes neither snapshot nor status; a 404 sets `Queuing` |
| Poll.Observe | py/bizyair_webapp.py:409-436 | a server failure raises only on `Failed` or `Error`; a break happens only on `Success`; a continuing iteration reports exactly one progress value and leaves a non-terminal status |
| Poll.ReceiveReply | py/bizyair_webapp.py:397-406 | the request statements as written produce exactly the snapshot and status `Receive` specifies |
| Poll.ObserveSnapshot | py/bizyair_webapp.py:409-436 | the statements after the request, as written, produce exactly the step `Observe` specifies |
| Poll.PollOnce | py/bizyair_webapp.py:395-436 | one iteration body as written equals `Iterate` on the loop variables |
| Poll.PollTask | py/bizyair_webapp.py:383-443 | the loop as written equals the loop specification `Run` from the start state |
| Poll.IterateKeepsNoTerminal | py/bizyair_webapp.py:392-436 | an iteration that continues never leaves a snapshot with a terminal status |
| Poll.NeverTimesOut | py/bizyair_webapp.py:392-443 | the loop ends only by the `Success` break or a raise, so the time-out raise after it is unreachable |
| Poll.PollingNeverTimesOut | py/bizyair_webapp.py:383-443 | from the start of polling, the time-out is never reached |
| Poll.TransportErrorIgnored | py/bizyair_webapp.py:405-420 | a transport exception or unexpected status keeps snapshot and status; the iteration reports the progress step and continues |
| Poll.NotFoundDefersToSnapshot | py/bizyair_webapp.py:403-409 | after a 404 the status is `Queuing` unless a held snapshot carries a status, which wins |
| Poll.CancelledKeepsPolling | py/bizyair_webapp.py:392 | a `Cancelled` snapshot does not end the loop |
| Poll.TerminalSnapshot | py/bizyair_webapp.py:432-436 | `Failed`/`Error` raise with `message_str` (default empty); `Success` breaks with `outputs` (default `[]`) |
| Poll.RunningStep | py/bizyair_webapp.py:417-418 | a `Running` reply with no server progress adds 0.01 to the simulated progress, capped at 0.95 |
| Poll.SimulatedProgressClimbs | py/bizyair_webapp.py:392-436 | under such replies the `k`-th report is `min(p + 0.01(k+1), 0.95)` and the loop is still waiting when the ticks run out |
| Poll.SimulatedProgressFromStart | py/bizyair_webapp.py:389-420 | from the start such reports stay in [0.26, 0.95] and never decrease |
| Poll.TransientErrorThenSuccess | py/bizyair_webapp.py:392-437 | a transport error followed by a `Success` reply finishes with that reply's outputs |
| Poll.ProgressCanFall | py/bizyair_webapp.py:417-420 | the reported progress falls from 0.26 to 0.1 when `Running` is followed by `Queuing` |
| Poll.FullProgressWhileRunning | py/bizyair_webapp.py:414-418 | a server progress of 100 while `Running` is reported as 1.0 before any terminal status |
| Results.FallbackOutputs | py/bizyair_webapp.py:446-454 | no 200 reply keeps the outputs; a body with code 20000 and a dict `data` gives its `outputs` (default `[]`); any other body keeps them |
| Results.Extension | py/bizyair_webapp.py:465 | the extension starts with a dot, has no upper-case ASCII letter, no `/` and no further dot; `.png` when the URL has none, else the URL's own extension lower-cased |
| Results.KindOf | py/bizyair_webapp.py:478-486 | image exactly for the six image extensions, audio exactly for the six audio ones, video otherwise |
| Results.FileNamesDistinct | py/bizyair_webapp.py:466 | two file names of one task are equal only for the same index and extension |
| Results.HandleEntry | py/bizyair_webapp.py:462-489 | an entry raises exactly when it is unreadable; it is downloaded exactly when it has a string URL; it yields a result exactly when the download succeeds, with its index, kind and file name |
| Results.PlanOfBounds | py/bizyair_webapp.py:462-489 | no more results than downloads, no more downloads than entries |
| Results.PlanOfSourced | py/bizyair_webapp.py:462-489 | every result is the single result its own entry yielded |
| Results.PlanOfOrdered | py/bizyair_webapp.py:462-489 | results appear in increasing index order |
| Results.PlanOfComplete | py/bizyair_webapp.py:462-489 | when no entry raises, entry `k` yields a result exactly when it has a URL and its download succeeds |
| Results.ResultsSound | py/bizyair_webapp.py:462-489 | every result comes from an entry with a URL whose download succeeded, in index order, with the kind and file name of its URL's extension |
| Results.SavedNamesDistinct | py/bizyair_webapp.py:462-489 | all results of one task have distinct file names |
| Results.OutputNamesDistinct | py/bizyair_webapp.py:461-489 | whatever the outputs are, the saved results have pairwise distinct file names |
| Results.ResultsComplete | py/bizyair_webapp.py:462-489 | when every entry is readable nothing escapes, and entry `k` yields a result exactly when it has a URL and its download succeeds |
| Results.DownloadOne | py/bizyair_webapp.py:462-489 | one loop pass raises, downloads and saves exactly what `HandleEntry` says |
| Results.DownloadEntries | py/bizyair_webapp.py:462-489 | the loop over the entries as written equals the fold `PlanOf` |
| Results.DownloadResults | py/bizyair_webapp.py:461-489 | the download loop equals `PlanOutputs`; non-iterable outputs raise |
| Lifecycle.IsPro | py/bizyair_webapp.py:294-303 | Pro exactly when the reply is a dict whose `data` is a dict judged Pro with its `name`; a missing reply, a malformed one or a raising judgement counts as not Pro |
| Lifecycle.AppNumber | py/bizyair_webapp.py:353 | `int(web_app_id)`: ints as they are, digit strings in base 10, floats truncated toward zero; `None`, lists and dicts raise |
| Lifecycle.HandleCreate | py/bizyair_webapp.py:362-380 | a status other than 200/202 fails with it; a falsy request id fails; `Success` returns the reply's outputs at once; `Failed` and `Cancelled` fail; polling starts only with a truthy id and a non-final status |
| Lifecycle.CreatedFailed | py/bizyair_webapp.py:377-378 | a task created `Failed` fails with the message `_extract_error` finds (its `error` when truthy) |
| Lifecycle.Finish | py/bizyair_webapp.py:445-491 | the outputs are queried exactly when they are empty; the downloads are those the download loop plans for the final outputs (the task's own, or the outputs endpoint's when those are empty); the execution fails with an escaped exception exactly when that loop raises and otherwise completes with the loop's results; nothing else recorded changes |
| Lifecycle.FinishResultsSound | py/bizyair_webapp.py:445-491 | every result of a completed outputs step comes, in entry order, from an entry of the final outputs with a URL whose download succeeded |
| Lifecycle.Gates | py/bizyair_webapp.py:268-318 | an execution passes exactly when it has an API key, an app and a truthy `web_app_id`, and, for a Pro app, an activated licence within its daily limit; a Pro app fails with `NotActivated` before `LimitReached` |
| Lifecycle.Submit | py/bizyair_webapp.py:320-357 | usage was counted exactly for a Pro app; the PUTs sent are the upload loop's; a submission happens exactly when the loop runs to the end and `int()` accepts the id, and it carries that number and the loop's input values; otherwise it fails with the upload's error, with the bad id, or with an escaped exception exactly when the port map made the loop raise |
| Lifecycle.SubmittedLastWrite | py/bizyair_webapp.py:326-361 | the task is created with, under each input name, the value of the last argument mapped to it: a plain argument's own value, or the value for its fully uploaded batch's URLs |
| Lifecycle.Conclude | py/bizyair_webapp.py:359-491 | a rejected creation fails with its own failure and changes nothing else; a task created `Success` goes straight to the outputs step; a polled task records the loop's reports, and an exception raised in the loop sends exactly one stop request, the primary signal for the last status, and is re-raised; a `Success` poll goes on to the outputs step with its outputs; ticks that run out leave the task polling; the usage count, uploads and submission are kept |
| Lifecycle.ExecuteApp | py/bizyair_webapp.py:268-499 | `execute_app` step by step equals the execution specification `Execute`, which stops a task with the cancellation as written |
| Lifecycle.SubmitInputs | py/bizyair_webapp.py:320-357 | the upload loop and the submission as written produce exactly the record `Submit` specifies |
| Lifecycle.RunTask | py/bizyair_webapp.py:359-443 | creating the task, polling it and, on a raise, the cancellation as written produce exactly the record `Conclude` specifies |
| Lifecycle.FetchResults | py/bizyair_webapp.py:445-491 | the outputs fallback and the downloads as written produce exactly the record `Finish` specifies |
| Lifecycle.SubmittedConcludes | py/bizyair_webapp.py:320-359 | an execution that submitted its inputs passed the gates and went on to creation with no stop request sent and the outcome still open |
| Lifecycle.UsageCountedOnlyForPro | py/bizyair_webapp.py:305-319 | usage is counted exactly when the checks before the licence pass and the app is Pro, activated and within its limit; a free app is never counted |
| Lifecycle.ProGateStopsEarly | py/bizyair_webapp.py:305-313 | a Pro app without an activated licence or over its limit fails with that reason, before any upload, submission, stop request or download |
| Lifecycle.StopsOnlyWhenPollingRaised | py/bizyair_webapp.py:391-440 | stop requests are sent exactly when the polling loop of a submitted task raised, and then exactly one: the primary signal the status at the raise selects; the execution fails with the raised exception; the fallback is never sent |
| Lifecycle.ExecuteAfterCreation | py/bizyair_webapp.py:359-491 | after submission, a rejected creation fails with its own failure having polled, stopped, queried and downloaded nothing; a `Success` poll leads to the outputs step with that poll's outputs; ticks that run out leave the task polling with nothing stopped or fetched |
| Lifecycle.NeverTimedOut | py/bizyair_webapp.py:442-443 | no execution ends with the time-out failure |
| Lifecycle.ConcludeNeverTimedOut | py/bizyair_webapp.py:359-443 | from creation onwards no execution ends with the time-out failure |
| Lifecycle.InterruptedAtOnce | py/bizyair_webapp.py:391-440 | an interruption at the first tick fails with the interruption and sends exactly the primary stop request the creation status selects |
| Lifecycle.ImmediateSuccessSkipsPolling | py/bizyair_webapp.py:374-376 | a task created `Success` is never polled and never stopped; the outputs are queried exactly when the creation reply had none |
| Lifecycle.OutputsQueriedOnlyWhenEmpty | py/bizyair_webapp.py:446-454 | the outputs endpoint is queried only when the task finished with empty outputs; an execution still polling has queried and downloaded nothing |
| Lifecycle.CompletedNamesDistinct | py/bizyair_webapp.py:462-491 | a completed execution's results have pairwise distinct file names |

## Left out

- The interfaces to the outside are parameters of the model:
  - Reading `api_key.ini` (`get_api_key`) is the parameter `Env.apiKey`.
  - The licence manager's state and its increment are the booleans `Env.activated` and `Env.dailyAllowed`, the message `Env.limitMessage`, and the recorded flag `usageCounted`.
- The HTTP routes that read the API key, show the licence and activate it (:43-76) are not modelled. They only call the licence manager.
- `_tensor_to_bytes` is left out: PNG encoding of a tensor, and the PIL, NumPy and torchaudio decoding of results, are floating-point and library work. An image is its encoded size. Whether a result's download and decoding succeeds is the parameter `fetchOk`.
- The random name parts (`uuid4`), the request date, the HMAC-SHA1/base64 signer and the host's interruption are parameters. So is every HTTP reply, each in the shape its caller reads:
  - the app-detail reply (`Env.appDetail`) and the outputs-endpoint reply (`Env.outputsReply`) are the decoded body of a 200 reply, or `None` for any other status or a caught exception;
  - the create reply is its status (`Env.createStatus`) and its decoded body (`Env.createBody`), whatever the status;
  - the token reply (`Oss.TokenReply`) is its status, the body's `code` and the credential;
  - the OSS PUT reply is its bare status (`ImageUpload.putStatus`);
  - a poll reply (`Poll.Reply`) is a 200 with its body, a 404, another status or a caught transport exception;
  - the primary stop reply (`Cancel.Reply`) is a status or a caught transport exception.
- `response.json()` failing to decode is not modelled.
- Transport exceptions outside any `try`: the token GET (:198), the OSS PUT (:228) and the create POST (:361) raise out of `execute_app` when the request itself fails. The model can only give these requests a failing status. The same requests are then sent, but the failure differs: an upload failure (`UploadFailed`) or `CreateHttp` instead of the escaped exception.
- `Inputs.ParsePayload`: a widget that decodes to something other than an object is treated as empty. In Python, a list widget without a `_port_map` element, or a string widget without the substring `_port_map` (`in` is a substring test on a string), becomes the input values, and the `.get` at :286 raises where the model fails with `MissingWebAppId`.
- `Inputs.Target`: a port-map entry whose value is `None`, a bool or a number is skipped. In Python it becomes an input-values key of that type, which the JSON encoding of the create request turns into its text (`5` into `"5"`, `None` into `"null"`).
- `Inputs.Arg`: a non-tensor argument is a JSON value. An argument that JSON cannot encode (an audio dict holding a tensor, say) is not modelled: when it is mapped, `requests.post(json=payload)` (:361) raises before any task exists.
- `Json.Value`: Python floats are exact reals here (`Float(r: real)`), and so is the progress in `Poll`. Rounding of float arithmetic is not modelled, so `Poll.SimulatedProgressClimbs`' exact `min(p + 0.01(k+1), 0.95)` holds for reals, not for repeated float additions.
- `Json.Render`: `str()` of a float, list or dict is a placeholder text. Only strings, ints, booleans and `None` are rendered as Python does.
- `Json.ToReal`: `float()` of a numeric string such as `"55"` is treated as raising, like any string.
- `Text.Lower`: `lower()` is ASCII-only. For the keywords and names the classifier looks for, this finds exactly what `str.lower()` finds (a full-width `ＶＩＤＥＯ` lowers to a full-width word that contains no `video` either way). It differs in the extensions `Results.Extension` produces: Python turns `.JPÉ` into `.jpé`, the model into `.jpÉ`, and the saved file name follows.
- `Lifecycle.AppNumber`: `int()` of strings with a sign, surrounding whitespace, underscores or non-ASCII decimal digits (such as Arabic-Indic `٧`) is treated as raising.
- Duplicate keys in a JSON object: lookups take the first occurrence.
- A token reply missing its credential fields is not modelled (Python would send `None` in the headers). The credential is taken as given.
- Progress reports: the execution record keeps only the values the polling loop reports. The fixed reports are not recorded: 0.0 at the start, 0.1 per uploaded image, 0.2 before creation, 0.99 while fetching and downloading, and 1.0 at the end. The elapsed-time text and the log messages are left out too.
- The output directory and writing files are left out. A saved result is its index, its kind and its file name.
- `time.sleep` and the clock are left out. Polling is driven by a finite sequence of ticks. `Pending`/`StillPolling` means the ticks ran out before the loop ended.
- Properties a reader might expect that the code does not have. The model states what the code does:
  - Progress is not monotonic and can reach 1.0 before `Success`. The code reports 0.2 before creation and then 0.1 on a `Queuing` poll. It also falls from a `Running` value to 0.1 (`Poll.ProgressCanFall`), and it reports 1.0 while the task is still `Running` (`Poll.FullProgressWhileRunning`).
  - The time-out raise after the polling loop (py/bizyair_webapp.py:442-443) cannot be reached (`Poll.NeverTimesOut`, `Lifecycle.NeverTimedOut`).
  - The fallback stop request announced by the docstring and comment at py/bizyair_webapp.py:234 and :262 is never sent (see Findings). The execution model follows the code and sends only the primary request.

## Findings

| source | as written | input that shows it | evidently intended | confidence | as-written member | corrected member |
|---|---|---|---|---|---|---|
| py/bizyair_webapp.py:261 | the fallback stop request is guarded by `resp and resp.status_code == 404`, but a `requests.Response` with status 404 is falsy, so the guard never holds and the fallback is never sent | a running task whose interrupt request (PUT) answers 404: only the interrupt is sent, never the cancel (DELETE) | send the fallback request whenever the primary answered 404 (`resp is not None and resp.status_code == 404`) | not executed | Cancel.CancellationAsWritten (shown by Cancel.AsWrittenRunning404; used by Lifecycle.Execute) | Cancel.Cancellation |
