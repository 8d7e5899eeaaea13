# Mobile Messaging SDK core, modelled in Dafny

This project models four pieces of sequential logic from the iOS Mobile Messaging SDK:

- **User-session tracking** (`UserSessionService`):
  - the session-tracking controller, with its timer, its reporting flag and its persisting and reporting operation queues, driven by lifecycle events and timer ticks (`session_tracking.dfy`);
  - the pure "current session" query and the derived session id (`user_session.dfy`, which uses the decimal rendering and parsing in `decimal.dfy`).
- **Push payload parsing** (`MMMessage`, `MOMessage`): validating constructors over loosely typed dictionaries, silent-message detection, the merge of the native `aps` with silent parameters, and the dictionary form of a mobile-originated message (`messages.dfy`, over the JSON-like `Value` type of `payload.dfy`).
- **Chat JavaScript commands** (`ChatJSWrapper`): the guards that decide whether a script is handed to the web view, the exact script text, and the completion each command calls (`chat_js.dfy`).
- **Notification-center delegate**: the mapping from notification types to presentation options, the message built from a notification, and the guard in front of action handling (`notification_center.dfy`).

The following conventions hold throughout:

- Dates are whole milliseconds since 1970.
- Each completion closure of `performSessionTracking` is a number that the service hands out. This is how "called exactly once" becomes a statement about the service's state: every number handed out is, exactly once, either in the log of called completions, owed by a queued operation, or cancelled (`SessionTracking.Accounts`, kept by every method as `Valid()`).
- The reporting queue is exclusive, so it is modelled as a single slot.
- The operation bodies are not modelled. "Operation finished" is an event that runs the finish block captured at enqueue time.
- Cancelled operations never run their finish blocks.
- The clock, the application state and the push registration id are inputs of the methods that read them.
- The JSON encoder of the chat is a parameter. The web view is a log of the scripts evaluated and of the values that completions were called with.

## Model

| member | source | states |
|---|---|---|
| UserSession.FetchCurrentSession | Classes/UserSession/UserSessionService.swift:102-113 | The result is None iff no record has `endDate > now - timeout`. Otherwise it is one of those records, with the smallest `startDate` among them. |
| UserSession.FetchCurrentSessionStartDate | Classes/UserSession/UserSessionService.swift:94-100 | The result is present iff some record is current. It is the start date of a current record, and no current record starts earlier. |
| UserSession.IsCurrent | Classes/UserSession/UserSessionService.swift:106 | A record is current iff its end date is strictly later than `now` minus the timeout, which is given in seconds and compared in milliseconds. |
| UserSession.SessionId | Classes/UserSession/UserSessionService.swift:15 | The id is the registration id, then `_`, then the canonical decimal text of the start in milliseconds. No `_` follows the separator, and that decimal text reads back to the start. |
| UserSession.CurrentSessionId | Classes/UserSession/UserSessionService.swift:13-19 | There is an id iff a registration id and a current session both exist. The id parses back to exactly that registration id and that session's start (in milliseconds). |
| UserSession.SessionIdUnique | Classes/UserSession/UserSessionService.swift:15 | Only one text parses to a given registration id and start: `SessionId`'s own. So the parse-back in `CurrentSessionId` pins the exact text, with no leading zeros and no `-0`. |
| UserSession.SessionIdRoundTrip | Classes/UserSession/UserSessionService.swift:15 | `"{pushRegId}_{startMillis}"` splits at its last `_` back into its two parts, even when the registration id contains `_`. |
| UserSession.LastIndexOf | Classes/UserSession/UserSessionService.swift:15 | Returns the last position holding the character, or None when the character does not occur. |
| Decimal.RoundTrip | Classes/UserSession/UserSessionService.swift:15 | The decimal rendering of an integer (with `-` for negatives) parses back to the same integer. |
| Decimal.DigitsRoundTrip | Classes/UserSession/UserSessionService.swift:15 | The digits of a natural number read back to that number. |
| Decimal.NatToDigits | Classes/UserSession/UserSessionService.swift:15 | The rendering of a natural number is a non-empty digit string with no leading zero. |
| Decimal.FromInt | Classes/UserSession/UserSessionService.swift:15 | The rendering of an integer contains only digits and `-`. |
| Decimal.ToInt | Classes/UserSession/UserSessionService.swift:15 | Text parses iff it is canonical decimal: digits with no leading zero (except `0` itself), optionally after `-`, with `-0` refused. |
| Decimal.LeadingDigitBound | Classes/UserSession/UserSessionService.swift:15 | A digit string reads to at least the value of its first digit. |
| Decimal.CanonicalDigits | Classes/UserSession/UserSessionService.swift:15 | A digit string without a leading zero is exactly the rendering of the number it reads to. |
| Decimal.ToIntCanonical | Classes/UserSession/UserSessionService.swift:15 | Every text that parses is the rendering of its value, so each integer has exactly one accepted text. |
| SessionTracking.UserSessionService.constructor | Classes/UserSession/UserSessionService.swift:25-36 | Starts suspended, with `isReportingNeeded` true, no timer, empty queues and no completion handed out. |
| SessionTracking.UserSessionService.Start | Classes/UserSession/UserSessionService.swift:49-55 | Sets up the timer. Nothing else changes. |
| SessionTracking.UserSessionService.SetupTimer | Classes/UserSession/UserSessionService.swift:148-155 | In the testing process nothing changes. Otherwise the timer is a new, resumed timer with the session save interval. Flag and queues are untouched. |
| SessionTracking.UserSessionService.Stop | Classes/UserSession/UserSessionService.swift:40-47 | The timer is gone and both queues are empty. What they owed is cancelled, and no completion is called. The flag is untouched. |
| SessionTracking.UserSessionService.CancelOperations | Classes/UserSession/UserSessionService.swift:143-146 | Both queues are emptied and their completions cancelled. The timer and the flag are untouched. |
| SessionTracking.UserSessionService.AppWillEnterForeground | Classes/UserSession/UserSessionService.swift:65-69 | `isReportingNeeded` becomes true. The timer and the queues are untouched. |
| SessionTracking.UserSessionService.AppDidBecomeActive | Classes/UserSession/UserSessionService.swift:71-76 | An existing timer is resumed. Without a timer nothing changes. The queues and the flag are untouched. |
| SessionTracking.UserSessionService.AppWillResignActive | Classes/UserSession/UserSessionService.swift:78-83 | An existing timer is suspended. Without a timer nothing changes. The queues and the flag are untouched. |
| SessionTracking.UserSessionService.AppWillTerminate | Classes/UserSession/UserSessionService.swift:85-90 | Same effect as `Stop`: no timer, both queues empty. |
| SessionTracking.UserSessionService.PerformSessionTracking | Classes/UserSession/UserSessionService.swift:115-128 | Hands out one new completion. If the app is inactive or there is no registration id, the completion is called at once and nothing is queued. Otherwise exactly one persisting operation is queued, carrying the registration id, the one `now` and `doReporting`. The flag is untouched. |
| SessionTracking.UserSessionService.HandleTimerEvent | Classes/UserSession/UserSessionService.swift:157-160 | Performs tracking with `doReporting` equal to the current `isReportingNeeded`. |
| SessionTracking.UserSessionService.TimerTick | Classes/UserSession/UserSessionService.swift:152-154 | A tick tracks exactly when a timer exists and is resumed. Otherwise nothing changes. A tracking tick with the app inactive or without a registration id calls its completion at once and queues nothing. Otherwise it queues one persisting operation with the current `isReportingNeeded` and calls nothing. The report slot, the cancelled completions, the flag and the timer are untouched. |
| SessionTracking.UserSessionService.PersistingOperationFinished | Classes/UserSession/UserSessionService.swift:128-140 | The oldest persisting operation leaves the queue. With `doReporting`, the flag becomes false and its completion moves to a new report if the reporting slot is free; if the slot is taken, the completion is called at once and no second report is queued. Without `doReporting` the completion is called and the flag is untouched. |
| SessionTracking.UserSessionService.ReportingOperationFinished | Classes/UserSession/UserSessionService.swift:132-134 | The report in the slot calls its completion, and the slot becomes free. |
| SessionTracking.CompletionCalledAtMostOnce | Classes/UserSession/UserSessionService.swift:115-141 | In every reachable state, each completion handed out is in exactly one place. A called completion was called exactly once, and is neither still owed nor cancelled. |
| SessionTracking.AccountsInitial | Classes/UserSession/UserSessionService.swift:27-30 | The initial state, with nothing handed out and nothing queued, accounts for every completion. |
| SessionTracking.AccountedEnqueue | Classes/UserSession/UserSessionService.swift:128 | Queuing an operation adds exactly its completion to the completions accounted for. |
| SessionTracking.IssuedNext | Classes/UserSession/UserSessionService.swift:115 | Handing out one more completion adds exactly the next number. |
| SessionTracking.AccountsEnqueueNew | Classes/UserSession/UserSessionService.swift:128 | Queuing an operation with a fresh completion keeps every completion accounted for. |
| SessionTracking.AccountsCompleteNew | Classes/UserSession/UserSessionService.swift:116-125 | Calling a fresh completion at once keeps every completion accounted for. |
| SessionTracking.AccountsCancel | Classes/UserSession/UserSessionService.swift:143-146 | Cancelling both queues keeps every completion accounted for. |
| SessionTracking.AccountsPersistToReport | Classes/UserSession/UserSessionService.swift:130-134 | Handing a persisting operation's completion to the report keeps every completion accounted for. |
| SessionTracking.AccountsPersistCompleted | Classes/UserSession/UserSessionService.swift:135-139 | Calling a persisting operation's completion keeps every completion accounted for. |
| SessionTracking.AccountsReportCompleted | Classes/UserSession/UserSessionService.swift:132-134 | Calling the report's completion keeps every completion accounted for. |
| SessionTracking.PersistingCompletionsAppend | Classes/UserSession/UserSessionService.swift:128 | Queuing an operation appends its completion to what the queue owes. |
| SessionTracking.IssuedOnce | Classes/UserSession/UserSessionService.swift:115 | Each completion number below the counter has been handed out exactly once. |
| Messages.SilentDict | Pod/Classes/Models/MMMessage.swift:45-55 | The silent dictionary is present iff `internalData` is a dictionary holding a dictionary under `silent`, and it is that inner dictionary. |
| Messages.ParseMessage | Pod/Classes/Models/MMMessage.swift:34-57 | Parsing succeeds iff `messageId` is a string and `aps` is a dictionary. The message keeps the id and the original payload. Its silence is `CheckIfSilent`, and its custom payload and silent data are those entries when they have the expected shape. `geoRegions` is `internalData.geo` when that is an array of dictionaries, and absent otherwise. |
| Messages.SilentApsExactlyWithSilentDict | Pod/Classes/Models/MMMessage.swift:44-52 | `aps` is the merged `SilentAPS` exactly when an `internalData.silent` dictionary exists. A message that is silent only through the top-level flag keeps its native `aps`. |
| Messages.CheckIfSilent | Pod/Classes/Models/MMMessage.swift:59-66 | The result is true iff `internalData.silent` is a dictionary or the top-level `silent` is `true`. Without that dictionary, the result is the flag, defaulting to false. |
| Messages.MergedAps | Pod/Classes/Models/MMMessage.swift:68-86 | Every native key except `alert` is kept. A native `sound` is also replaced when the silent `sound` is a string. `alert` is always the silent alert. `sound` is the silent `sound` when that is a string. No other key is added. |
| Messages.SilentAlert | Pod/Classes/Models/MMMessage.swift:70-78 | The alert holds only `body` and `title`, each present exactly when the silent value is a string, and then equal to it. |
| Messages.MergeApsWithSilentParameters | Pod/Classes/Models/MMMessage.swift:68-86 | The dictionary built step by step equals `MergedAps`. |
| Messages.MessageFromJson | Pod/Classes/Models/MMMessage.swift:26-32 | A JSON value gives a message iff it is a dictionary whose `messageId` is a string and whose `aps` is a dictionary. The message keeps that id and the whole dictionary as its original payload. |
| Messages.StatusRawValue | Pod/Classes/Models/MMMessage.swift:89-93 | `Undefined` is -1, `SentSuccessfully` 0 and `SentWithFailure` 1, in both directions. |
| Messages.StatusFromRawValue | Pod/Classes/Models/MMMessage.swift:89-93 | Only -1, 0 and 1 are statuses, and each maps back to its raw value. |
| Messages.StatusRawValueRoundTrip | Pod/Classes/Models/MMMessage.swift:89-93 | Every status round-trips through its raw value. |
| Messages.NewMOMessage | Pod/Classes/Models/MMMessage.swift:106-112 | The public initialisers keep the given fields, and the status is always `Undefined` (-1). |
| Messages.AsCustomPayload | Pod/Classes/Models/MMMessage.swift:95-97 | The cast succeeds iff every entry is a string or null. What it gives back renders to the same value. |
| Messages.ParseMODictionary | Pod/Classes/Models/MMMessage.swift:142-155 | Parsing succeeds iff `messageId` and `text` are strings and the status code is an integer. A known code gives its status and an unknown code gives `Undefined`. `destination` is the entry when it is a string. `customPayload` is present iff the entry is a dictionary of strings and nulls, and then it renders back to that entry. |
| Messages.MOMessageFromJson | Pod/Classes/Models/MMMessage.swift:126-132 | A JSON value gives a message iff it is a dictionary whose `messageId` and `text` are strings and whose status code is an integer. The message keeps that id and text. |
| Messages.DictRepresentation | Pod/Classes/Models/MMMessage.swift:114-124 | The keys are always `text` and `messageId`, plus `destination` and `customPayload` exactly when present, with the message's values. The dictionary carries no status, so it does not parse back by itself. With the status code added, it parses back to the same message. |
| Messages.CustomPayloadRoundTrip | Pod/Classes/Models/MMMessage.swift:150-155 | A custom payload written into the dictionary is read back unchanged. |
| ChatJS.StringValue | Classes/Chat/ChatJSWrapper.swift:32-39 | `ACTIVE` is "ACTIVE" and `ALL` is "ALL", in both directions. |
| ChatJS.StrategyRawValue | Classes/Chat/ChatJSWrapper.swift:27-31 | `ACTIVE` is 0 and `ALL` is 1, in both directions. |
| ChatJS.StrategyFromRawValue | Classes/Chat/ChatJSWrapper.swift:27-31 | Only 0 and 1 are strategies, and each maps back to its raw value. |
| ChatJS.StrategyRoundTrip | Classes/Chat/ChatJSWrapper.swift:27-31 | Every strategy round-trips through its raw value. |
| ChatJS.JavaScriptEscapedString | Classes/Chat/ChatJSWrapper.swift:131-138 | There is a result iff the encoder gives text. The result is that text minus its first and last characters. |
| ChatJS.EscapedIsElementLiteral | Classes/Chat/ChatJSWrapper.swift:133-135 | When the encoding of `[s]` is `[` + literal + `]`, the escaped string is exactly that literal. |
| ChatJS.EscapeOptional | Classes/Chat/ChatJSWrapper.swift:49-50 | An escaped message exists iff there is a message and it can be encoded. |
| ChatJS.SendMessageScript | Classes/Chat/ChatJSWrapper.swift:56 | The script is `sendMessage(`, then the escaped message or `''`, then `, '`, and it ends with `')`. With an attachment the tail is exactly `, '<base64 URL>', '<file name>')`; without one it is `, '', '')`. |
| ChatJS.SendDraftScript | Classes/Chat/ChatJSWrapper.swift:75 | The script is `sendDraft(`, the escaped message verbatim and `)`, and nothing else. |
| ChatJS.SetLanguageScript | Classes/Chat/ChatJSWrapper.swift:95 | The script is `setLanguage(`, the escaped locale verbatim and `)`, and nothing else. |
| ChatJS.SendContextualDataScript | Classes/Chat/ChatJSWrapper.swift:104 | The script is `sendContextualData(`, the metadata verbatim, then `, '`, the strategy's string value and `')`. |
| ChatJS.SetLanguageFailure | Classes/Chat/ChatJSWrapper.swift:90 | The failure reason ends with the locale it could not escape. |
| ChatJS.SendMessageTextOnly | Classes/Chat/ChatJSWrapper.swift:56 | A text-only message gives `sendMessage(<literal>, '', '')`. |
| ChatJS.SendMessageAttachmentOnly | Classes/Chat/ChatJSWrapper.swift:56 | An attachment-only message sends `''` as the message, followed by the attachment's base64 URL and file name. |
| ChatJS.ScriptCompletions | Classes/Chat/ChatJSWrapper.swift:53-58 | The count of script answers is the number of completion calls that are not failed conditions. |
| ChatJS.ScriptCompletionsAppend | Classes/Chat/ChatJSWrapper.swift:53-58 | A completion call adds to the count of script answers exactly when it is not a failed condition. |
| ChatJS.AllConditionFailures | Classes/Chat/ChatJSWrapper.swift:50-54 | A log made only of failed guards answers no script. |
| ChatJS.ScriptOutcome | Classes/Chat/ChatJSWrapper.swift:58 | A script's completion carries an error exactly when the web view reported one, and never a failed condition. |
| ChatJS.ChatWebView.constructor | Classes/Chat/ChatJSWrapper.swift:43 | A fresh web view has evaluated nothing and called no completion. |
| ChatJS.ChatWebView.SendMessage | Classes/Chat/ChatJSWrapper.swift:48-60 | With neither an escapable message nor an attachment, the completion gets `conditionFailed` with the source's reason, and no script is evaluated. Otherwise exactly the script `sendMessage(<escaped or ''>, '<base64 or empty>', '<file name or empty>')` is evaluated, and the completion gets the web view's error. One completion call either way. |
| ChatJS.ChatWebView.SendDraft | Classes/Chat/ChatJSWrapper.swift:66-80 | Without an escapable message, the completion gets `conditionFailed` and nothing is evaluated. Otherwise `sendDraft(<escaped>)` is evaluated. One completion call either way. |
| ChatJS.ChatWebView.SetLanguage | Classes/Chat/ChatJSWrapper.swift:86-100 | The given language, or else the session language, is stored as the session language before the guard. If its locale cannot be escaped, `conditionFailed` names the locale and nothing is evaluated. Otherwise `setLanguage(<escaped locale>)` is evaluated. |
| ChatJS.ChatWebView.SendContextualData | Classes/Chat/ChatJSWrapper.swift:102-109 | Always evaluates `sendContextualData(<metadata verbatim>, '<strategy>')`, with `ACTIVE` as the default strategy. |
| ChatJS.ChatWebView.AddViewChangedListener | Classes/Chat/ChatJSWrapper.swift:113-118 | Evaluates `onViewChanged()` and passes on the web view's error. |
| ChatJS.ChatWebView.ShowThreadList | Classes/Chat/ChatJSWrapper.swift:121-126 | Evaluates `showThreadList()` and passes on the web view's error. |
| ChatJS.ChatWebView.Evaluate | Classes/Chat/ChatJSWrapper.swift:56-59 | One script is logged with exactly one completion call that answers it. |
| ChatJS.ChatWebView.FailCondition | Classes/Chat/ChatJSWrapper.swift:50-54 | One failed-condition completion call is logged, and no script. |
| Payload.StringAt | Pod/Classes/Models/MMMessage.swift:35 | An entry is read as a string iff the key is present and holds a string, and the result is that string. |
| Payload.BoolAt | Pod/Classes/Models/MMMessage.swift:65 | An entry is read as a boolean iff the key is present and holds a boolean, and the result is that boolean. |
| Payload.IntAt | Pod/Classes/Models/MMMessage.swift:145 | An entry is read as an integer iff the key is present and holds an integer, and the result is that integer. |
| Payload.DictAt | Pod/Classes/Models/MMMessage.swift:38 | An entry is read as a dictionary iff the key is present and holds a dictionary, and the result is that dictionary. |
| Payload.NestedAt | Pod/Classes/Models/MMMessage.swift:45-61 | `d[outer]?[inner]` is present iff `d[outer]` is a dictionary that has the key `inner`, and then it is that entry. |
| Payload.AsDictArray | Pod/Classes/Models/MMMessage.swift:56 | A value is read as an array of dictionaries iff it is an array whose items are all dictionaries. The result has one dictionary per item, in order. |
| NotificationCenter.MakePresentationOptions | Classes/Core/UserNotificationCenterDelegate.swift:22-35 | `.alert`, `.badge` and `.sound` are present iff the matching type is, and no other option is ever present. The result is exactly the image of the input, so an empty input gives an empty result. |
| NotificationCenter.PresentationOf | Classes/Core/UserNotificationCenterDelegate.swift:25-33 | `alert`, `badge` and `sound` map to the matching presentation option, in both directions. `list` and `banner` are never produced. |
| NotificationCenter.NewMTMessage | Classes/Core/UserNotificationCenterDelegate.swift:13-18 | The message exists iff the payload parses, and it carries the given delivery fields. |
| NotificationCenter.MakeMTMessage | Classes/Core/UserNotificationCenterDelegate.swift:11-19 | A message built from a notification has delivery method `undefined`, no seen or delivery-report date, `NotSeen`, and no delivery report sent. |
| NotificationCenter.DidReceive | Classes/Core/UserNotificationCenterDelegate.swift:65-90 | The completion is called at once, with nothing handled, iff the action id is nil or the interaction service is absent. Otherwise the action goes to the service with the same identifier, category, user text, user info, and the message `MakeMTMessage` builds. |

## Left out

- Dispatch queues, `serviceQueue.async`, operation-queue threading and `performAndWait` are not modelled. Events are applied one at a time to the service state, and a script's completion is recorded when the command is issued rather than when the web view answers.
- `RepeatingTimer` and the bodies of `UserSessionPersistingOperation` and `UserSessionsReportingOperation` are not part of this model. The timer is its interval and a resumed flag. The operations are queued values, and their store updates are not modelled.
- Cancelled operations: the model takes `cancelAllOperations` to drop queued operations without running their finish blocks, so their completions are recorded as cancelled, not called. The operation class that would say otherwise is not part of this model.
- `SessionTracking.UserSessionService.CancelOperations` also drops the report in the exclusive slot, even though that report may already be running, and it frees the slot at once. After `Stop`, a later report can therefore be admitted while the cancelled one may still be running. Whether the SDK refuses that second report depends on `addOperationExclusively`, which is not part of this model. The model admits it, and it never lets a running operation finish after cancellation.
- `state` is never reassigned in `UserSessionService.swift`, so it keeps its initial value in every method.
- `stop` only drops the timer and cancels the queues. It does not refuse later `performSessionTracking` calls, because the code has no such guard, and the model follows the code.
- CoreData is modelled only through the filter, sort and limit of the query. Records are a sequence of `(startDate, endDate)` pairs.
- `UserSession.CurrentSessionId`: dates are integer milliseconds, so `floor(timeIntervalSince1970 * 1000)` and its floating point are not modelled, and neither is `Int64` overflow of the conversion.
- `MMAPIKeys` is not part of this model. Its keys are distinct string literals chosen here. The custom `+=` dictionary operator is taken as a right-biased merge.
- `as?` casts are strict by JSON type. The NSNumber bridging that lets `as? Bool` and `as? Int` both accept a number is not modelled.
- `MMAPS.text` (`MMMessage.text`) is not modelled: the `MMAPS` accessors are not part of this model.
- `MTMessage`'s initialiser is not part of this model. `NotificationCenter.NewMTMessage` takes it to succeed exactly when `MMMessage.init?(payload:)` does.
- `userNotificationCenter(_:willPresent:)`, banner display, `didReceiveRemoteNotification` and `NotificationsInteractionService.handleAction` are left out, because they call into delegates and singletons that are not part of this model. `DidReceive` returns the arguments that the action would be handed.
- `UserNotificationType.contains(options:)` is taken to be set membership.
- The generated UUID of `MOMessage.init(destination:text:customPayload:)` is an input of `NewMOMessage`. Logging is left out.
- `WKWebView.evaluateJavaScript` and `JSONSerialization` are foreign calls. The encoder is an uninterpreted function whose non-nil results have at least two characters, and the web view is the log of evaluated scripts.
- `MMLanguage.sessionLanguage` is a global in the SDK. Here it is the field `sessionLanguage` of each `ChatJS.ChatWebView`, and its default (the installation language or English) is a constructor argument. So two web views do not share the stored language, and how the default is found is not modelled.
- The convenience overloads without completion (`sendMessage(_:attachment:)`, `sendDraft(_:)`, `setLanguage(_:)`) are not modelled separately. They are the same commands with a completion that ignores its argument.
