# dismob core, modelled in Dafny

`dismob` is a small helper package for discord bots. It has three pieces of logic, and this project models each of them and proves what they promise:

- **Colour strings** (`dismob/colors.py`). `str_to_color` turns user text into a discord colour. A known colour name may come in any case and with surrounding whitespace. Otherwise the text is read as three or six hex digits, with or without one leading `#`. Anything else gives blurple and logs one warning. The model is in `colors.dfy` (module `Colors`). It includes Python's `int(s, 16)` as the code calls it: surrounding whitespace, a sign, a `0x` prefix and underscores are all accepted.
- **Logging and message helpers** (`dismob/log.py`).
  - `logging.dfy` (module `Logging`) models:
    - `setup_logger`, as a method of the `LogSink` class over a registry of named loggers;
    - the `require_logger` guard in front of `debug`/`info`/`warning`/`error`;
    - the console `ColorFormatter`, as a method that decorates a `LogRecord` object in place.
  - `dispatch.dfy` (module `Dispatch`) models `missing_if_none`, `safe_send_message`, `safe_respond`, `safe_followup`, `client`, `success` and `failure`.
    - Each request meets an oracle `Outcome`: a handle, or one of the exceptions the code tells apart.
    - A call yields a `Run`: the ordered trace of requests issued and log entries written, plus how the call ended (a returned value or an escaping exception).
- **Persistent-view sweep** (`dismob/utils.py`). `clear_views` is a method on a `Bot` object whose `persistentViews` sequence it edits in place. It has the source's two loops: collect the matches, then `list.remove` each one. It is proved equal to a filter specification, and the filter's properties are proved as lemmas. The model is in `views.dfy` (module `Views`).

`wrappers.dfy` holds the `Option` type, which stands for Python's `X | None`.

Whether a logger has been set up is the `logger` field of `LogSink` in the imperative parts, and a `setUp` flag in the pure ones. Without a logger, every logging call raises `RuntimeError`, modelled as `Raised(LoggerNotSetUp)`.

## Model

| member | source | states |
|---|---|---|
| Logging.ResolveLevel | dismob/log.py:28-30 | A level name is upper-cased and looked up among the logging level names. An unknown name gives INFO. The result is always a known level. |
| Logging.ResolveLevelIgnoresCase | dismob/log.py:29-30 | Two names that differ only in letter case resolve to the same level. |
| Logging.ResolveLevelExamples | dismob/log.py:28-30 | "debug" gives DEBUG, "Warn" gives WARNING, and the unknown "verbose" gives INFO. |
| Logging.Configure | dismob/log.py:32-85 | Setting up a logger touches only that logger. Its level is the lower of the two sink levels and equals one of them. The file and console sinks are attached, in that order, only when the logger has no handler yet. Existing handlers are kept as they are. |
| Logging.RepeatedSetupKeepsFirstSinks | dismob/log.py:83-85 | After two setups of the same logger there is exactly one file sink and one console sink, with the levels of the first call. The logger's own level is the one the second call computed. |
| Logging.Guard | dismob/log.py:106-111 | A guarded logging call raises RuntimeError exactly when no logger is set up, and then hands nothing to a logger. Otherwise it hands over its entry exactly once and returns. |
| Logging.LogSink.constructor | dismob/log.py:14 | Before any setup, the module-level logger is None and nothing has been logged. |
| Logging.LogSink.SetupLogger | dismob/log.py:18-85 | The named logger becomes the module-level logger, and the registry changes as `Configure` says. The defaults are "DungeonBot", "INFO" and "INFO". |
| Logging.LogSink.Guarded | dismob/log.py:106-111 | The wrapper raises when the module-level logger is None. Otherwise it appends the entry to the delegated records once. |
| Logging.LogSink.Debug | dismob/log.py:113-115 | `debug` is one guarded DEBUG entry without a stack. |
| Logging.LogSink.Info | dismob/log.py:117-119 | `info` is one guarded INFO entry without a stack. |
| Logging.LogSink.Warning | dismob/log.py:121-123 | `warning` is one guarded WARNING entry without a stack. |
| Logging.LogSink.Error | dismob/log.py:125-127 | `error` is one guarded ERROR entry. It asks for a stack unless told otherwise. |
| Logging.PadRight | dismob/log.py:61 | Left-justification to a width: the text is kept as a prefix and padded with spaces to the width. It is never truncated. |
| Logging.StyledLevel | dismob/log.py:59-63 | The styled level name is at least eight characters long, so the layout's own padding to eight adds nothing. |
| Logging.ColorFormat | dismob/log.py:58-80 | The record's level name and logger name are overwritten with their styled forms: bold, a colour per standard level (none for other names), padded to eight, reset; purple and reset for the name. The timestamp is bold grey. The numeric level and the message are untouched. The line follows the console layout. |
| Logging.ConsoleStylingIsInvisible | dismob/log.py:58-80 | Once its escape sequences are removed, the styled console line is exactly the plain layout of the undecorated record. Styling adds escape codes only. |
| Colors.StrToColor | dismob/colors.py:21-43 | The only exception is the logger guard's, and only on the fallback path. At most one entry is logged; if there is one, it is a warning and the result is blurple. A named result is always one of the 36 known names. With a logger, a warning is logged exactly when the result is blurple but the text was not "blurple" itself. The warning quotes the text as the code changed it: trimmed, one `#` removed, and three characters doubled. |
| Colors.StripPadded | dismob/colors.py:22 | Stripping removes exactly the whitespace around a core that neither starts nor ends with whitespace. |
| Colors.NamedColourLookup | dismob/colors.py:22-28 | Surrounding whitespace and letter case do not matter. A known name gives that named colour and logs nothing, whatever hex reading it might also have. |
| Colors.HexIsNoName | dismob/colors.py:26-31 | A string of three or more hex digits is never a colour name in any case, so it reaches the hex branch. |
| Colors.HashIsNoName | dismob/colors.py:26-33 | A string starting with `#` is never a colour name. |
| Colors.PyInt16OfDigits | dismob/colors.py:38 | On a non-empty string of hex digits, `int(_, 16)` is the plain hexadecimal value. |
| Colors.HexValueBound | dismob/colors.py:37-38 | n hex digits denote at most 16^n - 1. |
| Colors.SixDigitColour | dismob/colors.py:32-38 | Six hex digits, with or without one `#` and surrounding whitespace, give the colour of their value, which lies in [0, 0xFFFFFF]. Nothing is logged. |
| Colors.ThreeDigitColour | dismob/colors.py:34-38 | Three hex digits abc are doubled before parsing, giving the colour 0xaabbcc. Nothing is logged. |
| Colors.ExpandedValue | dismob/colors.py:36-38 | Doubling three digits a, b, c gives the value 0x110000·a + 0x1100·b + 0x11·c. |
| Colors.Expand | dismob/colors.py:36 | Every character appears twice in place: positions 2k and 2k+1 both hold character k, and the length doubles. |
| Colors.HexRoundTrip | dismob/colors.py:32-38 | Every value up to 0xFFFFFF, written as `#` and six hex digits, reads back as that colour. |
| Colors.WrongLengthFallsBack | dismob/colors.py:34-43 | Text that is not a name and, after at most one `#` is removed, is neither 3 nor 6 characters long gives blurple. The warning quotes that trimmed, unhashed text. |
| Colors.MalformedHexFallsBack | dismob/colors.py:32-43 | Text that is not a name and has 3 or 6 characters after at most one `#`, but that `int` rejects, gives blurple. The one warning quotes the six characters handed to `int`, doubled in the three-character case. |
| Colors.ColourExamples | dismob/colors.py:21-38 | "  TEAL " gives teal. "#ABC" gives 0xAABBCC, with or without a logger. |
| Colors.TooShortExample | dismob/colors.py:39-43 | "zz" gives blurple and one warning quoting "zz". Without a logger, the warning raises RuntimeError. |
| Colors.DoubleHashExample | dismob/colors.py:32-33 | Only one `#` is removed: "##abcdef" falls back, and the warning quotes "#abcdef". |
| Colors.FourDigitExample | dismob/colors.py:34-42 | "abcd" and " #abcd " fall back, and both warnings quote "abcd". |
| Colors.BadShortFormExample | dismob/colors.py:34-42 | "#xyz" is doubled before the parse fails, and the warning quotes "xxyyzz". |
| Colors.PyInt16Prefixed | dismob/colors.py:38 | `int("0x1234", 16)` is 0x1234. |
| Colors.PrefixedHexExample | dismob/colors.py:37-38 | "0x1234" has six characters that `int` accepts, so it is the colour 0x1234. |
| Dispatch.MissingIfNone | dismob/log.py:131-133 | None becomes MISSING, and any other value passes through unchanged. |
| Dispatch.SafeSendMessage | dismob/log.py:135-149 | Exactly one send, with the message's parts as given. With a logger the call never raises. A delivered message gives one info entry naming the channel, and the handle. Forbidden gives the permission error, NotFound the not-found error, and anything else the generic error quoting the exception; all three log one error entry with a stack and return None. Without a logger, RuntimeError escapes after the send. |
| Dispatch.SafeFollowup | dismob/log.py:165-174 | One followup request on the webhook route, keyed by the application id. Success logs nothing and returns the handle. Any failure logs one error entry and returns None, or raises RuntimeError without a logger. |
| Dispatch.SafeRespondAsWritten | dismob/log.py:151-163 | One callback request on the interaction route, keyed by the interaction id. A delivered callback returns its handle and logs nothing. After "already responded", the requests and entries are the followup's, and the result is None whatever the followup returned (the followup's RuntimeError still escapes). Any other failure logs one error entry and returns None, or raises RuntimeError without a logger. |
| Dispatch.SafeRespond | dismob/log.py:151-163 | The first request is the callback, with None parts passed as MISSING. Success returns the handle and logs nothing. "Already responded" makes the call exactly the followup with the same arguments. Any other failure logs one error entry and returns None, or raises RuntimeError without a logger. |
| Dispatch.RespondFallbackIsFollowup | dismob/log.py:159-161 | The fallback issues the callback and then the followup request. It writes the followup's entries and no error of its own, and ends as the followup ends. |
| Dispatch.AsWrittenDropsFollowupResult | dismob/log.py:161 | The code as written and the corrected call issue the same requests and write the same entries. Their results differ exactly when the fallback's followup delivered: as written, the result is None instead of the handle. |
| Dispatch.RateBuckets | dismob/log.py:154-172 | Callback requests of two interactions share a rate-limit bucket exactly when their interaction ids agree. Followups share one exactly when their application ids agree. A callback and a followup never share a bucket. |
| Dispatch.Client | dismob/log.py:89-95 | A command context gets the embed with a footer naming its author. It is sent directly with `delete_after`, nothing is logged, and a failure escapes. An interaction is answered through `safe_respond` as written: an ephemeral callback whose only part is the embed without footer. The call is exactly that `safe_respond` call, so after "already responded" the result is None. |
| Dispatch.CorrectedClient | dismob/log.py:89-95 | `client` with the corrected `safe_respond`: the context path is unchanged, and an interaction is answered through `SafeRespond`. |
| Dispatch.ClientDropsFollowupResult | dismob/log.py:95 | `client` as written and corrected issue the same requests and write the same entries. Their results differ exactly for an interaction already answered whose followup delivered: as written the result is None, corrected it is the followup's handle. |
| Dispatch.InteractionIgnoresDeleteAfter | dismob/log.py:94-95 | For an interaction, `delete_after` changes nothing. |
| Dispatch.Success | dismob/log.py:97-99 | The info entry for the message is written first. Everything after it in the trace is exactly what `client` does with a green "Success" embed: the same requests, the same error entries, the same exit. Without a logger, RuntimeError escapes before anything is sent. |
| Dispatch.Failure | dismob/log.py:101-103 | The error entry for the message is written first, with a stack only when asked for (not by default). Everything after it in the trace is exactly what `client` does with a red "Error" embed. Without a logger, nothing is sent. |
| Dispatch.SuccessAfterResponseExample | dismob/log.py:89-103 | `success` on an interaction that was already answered is delivered by the followup, and the info line is the only entry. The caller still gets None. With the corrected `client`, the followup's handle would come back. |
| Views.Matching | dismob/utils.py:17-20 | The collected views all match the given types, and there are never more of them than views. |
| Views.Without | dismob/utils.py:17-23 | No survivor matches, and the list shrinks by exactly the number of matches. |
| Views.RemoveFirst | dismob/utils.py:23 | `list.remove` takes out one copy of the view: the list is one shorter and loses exactly that one element, counted with multiplicity. |
| Views.RemoveFirstCutsFirst | dismob/utils.py:23 | `list.remove` cuts out the first occurrence. When the view does not occur in the prefix before a copy of it, removal leaves that prefix followed by everything after the copy. |
| Views.RemoveStep | dismob/utils.py:22-23 | In the removal loop, the next collected view is still in the list. Removing its first occurrence removes exactly the next matching entry. |
| Views.SplitIsPermutation | dismob/utils.py:18-23 | Matches and survivors together are the original views, counted with multiplicity. |
| Views.SurvivorsKeepTheirCount | dismob/utils.py:18-23 | Every non-matching view survives as many times as it occurred. |
| Views.SurvivorsKeepTheirOrder | dismob/utils.py:18-23 | The survivors keep their original relative order. |
| Views.ClearIsIdempotent | dismob/utils.py:17-23 | A second sweep with the same types finds nothing and changes nothing. |
| Views.NatToString | dismob/utils.py:25 | The count is written as one or more decimal digits, with no leading zero, that read back as the count itself. |
| Views.CountExample | dismob/utils.py:25 | The count 305 is written "305". |
| Views.ReprExamples | dismob/utils.py:25 | Types are written as Python prints them: a class as `<class 'app.Menu'>`, the empty tuple as `()`. |
| Views.OneClassTupleExample | dismob/utils.py:25 | A one-class tuple is written with a trailing comma: `(<class 'app.Menu'>,)`. |
| Views.ClearViews | dismob/utils.py:11-25 | Without view types, one warning is logged and the views are untouched. Otherwise every view that is an instance of one of the types is removed, in two passes. The survivors are what `Without` keeps. One info entry reports the number of matches and the types. Without a logger, the guard raises instead, after the removal in the second case. |

## Left out

- Log file and I/O: `setup_logger`'s log-file path, the `FileHandler`/`StreamHandler` objects and their formatters are not modelled. A handler is its kind and its level.
- The clock: `formatTime` gets the base formatter's timestamp text as the parameter `clock`.
- Stack capture: `stack_info` and `stacklevel` in `error` are reduced to a flag on the entry. The standard formatter appends the captured stack text after the formatted line of a record with `stack_info` set, which `error` does by default (dismob/log.py:126-127). So the line `ColorFormat` builds is the whole console output only for records without a stack.
- Record filtering: Python `logging`'s level filtering and propagation are not modelled. This includes a logger at NOTSET inheriting its parent's level, and the delivery of records to handlers. The guard's "delegates once" is modelled as the entry being appended to `records`.
- Logging.Configure: `hasHandlers()` also looks at ancestor loggers. The model checks only the logger's own handlers, so it misses the case where a configured root logger makes the setup skip its own sinks. The model also keys loggers by name alone. `getLogger("")` and `getLogger("root")` both return the one root logger, which starts at WARNING rather than NOTSET and may already carry handlers. The model treats those names as two ordinary loggers that start empty.
- Logging.ResolveLevel, Colors.StrToColor: case mapping is ASCII only. Python's `upper`/`lower` also map non-ASCII letters.
- Colors.PyInt16: digits are ASCII hex digits only. Python's `int` also accepts other Unicode decimal digits.
- Dispatch: discord.py and the rate limiter are not modelled. That covers `Embed`/`Colour` objects (named colours stay opaque tags), `ctx.send`, `send_message`, `followup.send`, `execute_request` and `safe_send`. Each request meets an oracle `Outcome`, and an exception's text is its `desc`.
- Dispatch.Success, Dispatch.Failure: they follow the code as written, through `Client`. No corrected copies are kept. Each returns its `client` call's result, so `CorrectedClient` shows what the correction changes.
- Dispatch.Client: an object that is neither a command context nor an interaction (the source then returns None) is not representable.
- Async: scheduling, cancellation and concurrent delivery order are not modelled. Each call is sequential.
- Views.ClearViews: whether discord.py's `persistent_views` is a live list, so that removing from it really unregisters a view, is library behaviour. The model edits a sequence the bot owns.
- Views.IsInstance: class membership is given as the set of classes a view is an instance of. Python's class hierarchy and MRO are not modelled.

## Findings

| source | as written | input that shows it | evidently intended | confidence | as-written member | corrected member |
|---|---|---|---|---|---|---|
| dismob/log.py:161 | After InteractionResponded, `safe_respond` awaits `safe_followup` but does not return its result, so the call returns None. | An interaction already responded to, where the followup delivers message h: `safe_respond` returns None, not h. Through `client`, `success` and `failure` the caller also gets None. | Return the followup's message, as every other success path returns the sent message. | not executed; read from the code | Dispatch.SafeRespondAsWritten (shown by Dispatch.AsWrittenDropsFollowupResult; carried through Dispatch.Client and Dispatch.Success, shown by Dispatch.SuccessAfterResponseExample) | Dispatch.SafeRespond (Dispatch.RespondFallbackIsFollowup; used by Dispatch.CorrectedClient, related by Dispatch.ClientDropsFollowupResult) |
