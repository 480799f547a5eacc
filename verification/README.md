# Ntn2DC-TaskNotify in Dafny

A model of the decision logic of Ntn2DC-TaskNotify, a pair of scripts that
watch a Notion task database and announce work on a Discord webhook. It
models two reconcilers. Each is a pure function from the fetched query
response and the previous state to a run: the webhook posts and page
patches it issues, in order, then how it ends (state saved, exception
raised, or early exit).

- **Status-diff reconciler** (`notion_monitor.py`, module `StatusDiff`).
  It rebuilds the state page id → status id on every run. It notifies a
  page whose status changed, or that is new or forced, when the page is in
  progress and not suppressed, or is forced. Each notification is followed
  by a patch that clears the page's 強制通知 (force) flag.
- **Notified-set reconciler** (`main.py`, module `NotifiedSet`). It keeps
  the state page id → title, which only grows. It sends each in-progress
  record once: a task message for kind タスク, a conference message for
  kind 会議.

Around them sit the pure helpers they use. `NotionClient` holds the record
accessors, the member-map fold, the URL builder and the filter and patch
bodies. `PropertyFormat` holds the property formatter. `DiscordClient`
holds mention resolution, the message builder and the webhook payload.
`Config` holds the message templates and constants. `Dates` holds the
weekday-annotated date renderer and `Prompt` the yes/no/stop classifier.

Python values are modelled as JSON values (`PyJson.Json`). Each Python
operation that can raise returns a `Result` that names the exception:
subscription, `dict.get`, indexing, iteration, `str()` and `str.join`. A
crash keeps the events already emitted and saves no state, as in the
scripts. HTTP, files, the environment and the console are parameters or
are left out. The query responses, the loaded state and the user map are
inputs. Sends and patches are `Effects.Event` values.

## Model

| member | source | states |
|---|---|---|
| NotionClient.GetTitleCases | src/notion_client.py:44-48 | for a title property holding any other keys: None when it is absent or falsy or its title list is falsy; otherwise the first fragment's plain_text; a missing title or plain_text key raises KeyError, a non-dict record or property TypeError, a record without properties KeyError, and properties that are not a dict AttributeError |
| NotionClient.GetCheckboxValue | src/notion_client.py:50-51 | False when the property or its checkbox key is absent, the stored value otherwise; a non-dict property raises AttributeError |
| NotionClient.GetSelectValue | src/notion_client.py:53-57 | None when the property is absent or its select is missing or falsy; for a truthy select dict, whatever other keys it has, its name entry, or None when it has none; a non-dict property or select raises AttributeError |
| NotionClient.GetRelationRecords | src/notion_client.py:59-63 | a missing property raises KeyError; an empty or null relation gives [], a non-empty one is returned unchanged |
| NotionClient.GetDeadline | src/notion_client.py:65-66 | the start entry of the property's date dict, or None when the date has no start; a missing 締切日 property or a missing or non-dict date raises AttributeError (None has no get) |
| NotionClient.MemberFoldKeys | src/notion_client.py:71-77 | the setdefault fold keeps every earlier key and adds exactly the member ids |
| NotionClient.MemberFoldFirstWins | src/notion_client.py:74-75 | for an id that occurs several times, the title of its first occurrence is kept |
| NotionClient.RetrieveMemberDict | src/notion_client.py:71-77 | on success the keys are exactly the member ids and each id maps to the title of its first member |
| NotionClient.BuildNotionUrl | src/notion_client.py:92-94 | the URL is https://www.notion.so/ followed by the id with every '-' removed and the other characters in order (see Text.RemoveCharAppend); the suffix has no '-'; a non-string id raises AttributeError |
| Text.RemoveCharAppend | src/notion_client.py:93 | removing '-' from a concatenation removes it from each part and concatenates the results, so the kept characters keep their input order |
| NotionClient.BuildNotionUrlIdempotent | src/notion_client.py:92-94 | an id that is already clean is kept unchanged, so cleaning twice equals cleaning once |
| NotionClient.ProgressFilterMeaning | src/notion_client.py:16-35 | a record satisfies the query filter iff its ステータス is 進行中 and its notified checkbox is False |
| NotionClient.UpdatePageCheckbox | src/notion_client.py:79-87 | the patch body sets only the named property, to a checkbox with the given value, which get_checkbox_value reads back |
| PropertyFormat.FormatPropertyValue | src/notion_monitor.py:136-205 | fails exactly on None and dict values (ValueError) and on non-assignee lists holding a list or dict item |
| PropertyFormat.FormatPropertyType | src/notion_monitor.py:148-205 | the body has exactly one key, the Notion type a table gives the name and value type: 名前 with a string title, ステータス with a string status, 担当者 with a string or list multi_select, 非通知 and 強制通知 with a bool checkbox, and otherwise bool checkbox, int number, string select, list multi_select; a type with no entry raises ValueError |
| PropertyFormat.BooleanIsCheckbox | src/notion_monitor.py:179-189 | a boolean becomes a checkbox under every property name and never a number, because the bool test comes first |
| PropertyFormat.FormatReadBack | src/notion_monitor.py:148-203 | reading a formatted body back gives the Notion type the same table assigns and the value again (title, status, select, number, checkbox, order-preserving multi_select), except that a single 担当者 string comes back as a one-element list |
| PropertyFormat.UpdatePageProperty | src/notion_monitor.py:124-130 | the patch body has the single key properties, holding only the named property, formatted |
| PropertyFormat.CheckboxBodiesAgree | src/notion_monitor.py:100-130 | for a boolean the generic setter sends the same body as update_page_checkbox in src/notion_client.py |
| PropertyFormat.UpdatePageMultipleProperties | src/notion_monitor.py:231-237 | the body's property keys are exactly the input's names, each value formatted on its own; on failure the error is that of the first value that cannot be formatted, every earlier one having formatted |
| DiscordClient.MappedNames | src/discord_client.py:26-32 | a name is kept iff it is a string with a non-empty Discord id; one name maps to itself or to nothing; with DiscordClient.MappedNamesAppend this fixes the result as the kept names in input order |
| DiscordClient.MappedNamesAppend | src/discord_client.py:26-32 | the mapped names of a concatenation are those of the first part followed by those of the second |
| DiscordClient.Mentions | src/discord_client.py:26-32 | the j-th mention is <@id> of the j-th mapped name, so mentions follow input order and unmapped names are dropped; a list or dict name raises TypeError |
| DiscordClient.MentionBlockLines | src/discord_client.py:34-39 | for one or more resolved names the mention block splits into one line \- <@id> per mention, so its line count equals the number of resolved names |
| DiscordClient.MentionBlockEmpty | src/discord_client.py:34-39 | with no resolved name the mention block is the empty string, a single empty line |
| DiscordClient.BuildDiscordMessage | src/discord_client.py:19-41 | the message is built iff the user map is non-empty, the page id is a string, every name resolves, the date converts and the title is hashable; an empty user map raises before anything else; the task template is used iff is_task; the message holds the title, the page URL, the mention block and the rendered date under its heading |
| DiscordClient.SendPayload | src/discord_client.py:43-47 | flags are 4096 when silent and 0 otherwise; the content is the message with surrounding whitespace stripped |
| DiscordClient.SendTaskMessage | src/discord_client.py:9-12 | returns exactly the task message it built and posts it silently |
| DiscordClient.SendConferenceMessage | src/discord_client.py:14-17 | returns exactly the conference message it built and posts it silently |
| DiscordClient.SendersDifferOnlyInLabel | src/discord_client.py:9-17 | the two senders build the same text except for the date heading label |
| Config.TaskMessage | src/config.py:72-81 | contains "> # " + title, "## 締切日: " + deadline, the mention string and the page URL |
| Config.ConferenceMessage | src/config.py:61-70 | contains "> # " + title, "## 開始日時: " + start date, the mention string and the page URL |
| Config.MessagesDifferOnlyInLabel | src/config.py:61-81 | the two templates agree up to the heading label and after it |
| Dates.Weekday | src/utils.py:29 | the weekday index is in 0..6 |
| Dates.WeekdayNextDay | src/utils.py:29 | the next day's weekday is the next index modulo 7 |
| Dates.FirstDayIsMonday | src/utils.py:26-29 | 1 January of year 1 has index 0, which is Monday (月) |
| Dates.ParseIso | src/utils.py:28 | accepts only valid calendar dates and times; anything else raises ValueError |
| Dates.ParseIsoRoundTrip | src/utils.py:28 | parsing the ISO text of a valid date-time gives it back |
| Dates.Render | src/utils.py:32-35 | the date-only form iff hour and second are 0; fields zero-padded as YYYY/MM/DD (W) [HH:MM], with the weekday label of the date |
| Dates.MinutesIgnoredAtMidnight | src/utils.py:32-33 | the date-only form ignores the minutes, so 00:30:00 renders without a time |
| Dates.ConvertToDatetimeObj | src/utils.py:25-35 | a non-string raises TypeError and an unparsable one ValueError; otherwise the output shows the parsed date: its year, month and day digits and the weekday label of that date, 14 or 20 characters |
| Dates.ConvertIsoFormat | src/utils.py:25-35 | the ISO timestamp of any valid date and time is rendered as that date and time |
| Dates.SundayDeadline | src/utils.py:26-30 | 2025-06-01 is a Sunday and renders with the label 日 |
| Prompt.TokenSetsDisjoint | src/utils.py:38-40 | the yes, no and stop token sets are pairwise disjoint |
| Prompt.Classify | src/utils.py:46-53 | yes tokens answer Yes, no tokens No, stop tokens Stop, and any other token asks again |
| Prompt.AskContinue | src/utils.py:37-53 | running out of input happens iff every line asks again; a stop exits with code 1 |
| Prompt.FirstAnswerDecides | src/utils.py:46-53 | the reply is decided by the first line that is a yes, no or stop token |
| Text.Strip | src/discord_client.py:45 | the result occurs in the input with only whitespace around it, and starts and ends with non-whitespace |
| Text.RStripNewlines | src/discord_client.py:39 | a prefix of the input without a trailing newline; only newlines were removed |
| StatusDiff.MultiSelectNames | src/notion_monitor.py:303-314 | no names unless the property is truthy and typed multi_select; then, whatever other keys it has, the names of its multi_select list in order; a missing multi_select key raises KeyError |
| StatusDiff.ReadPageCases | src/notion_monitor.py:287-322 | skips a page iff it has an id and no title; a titled page without a status property raises; the status id is the status dict's id entry whatever other keys it has, None for a falsy status, and a status dict without id raises KeyError; the view holds the page id, title and the two flags |
| StatusDiff.ShouldNotify | src/notion_monitor.py:326-328 | a forced page is always notified; otherwise a page is notified iff it is new or changed, not suppressed, and in progress |
| StatusDiff.Partition | src/notion_monitor.py:254-266 | every name lands in exactly one of the mentions (the same ones the other script's builder produces) and the unknowns, both in input order |
| StatusDiff.Unmapped | src/notion_monitor.py:254-266 | a name is an unknown iff it has no Discord id; one name is its own unknown list or none; with StatusDiff.UnmappedAppend this fixes the unknowns in input order |
| StatusDiff.UnmappedAppend | src/notion_monitor.py:254-266 | the unknowns of a concatenation are those of the first part followed by those of the second |
| StatusDiff.UnknownNote | src/notion_monitor.py:272-273 | the unknown note is non-empty iff the unknown list is non-empty, and then lists the unknown names |
| StatusDiff.NotificationContent | src/notion_monitor.py:251-276 | the content holds the page URL and each role's unknown note, whose names must all be strings |
| StatusDiff.NotificationContentCases | src/notion_monitor.py:251-276 | the content is built iff the id is a string, the title printable, the names hashable and the unknowns strings; a non-string id raises AttributeError and a non-string unknown name TypeError; each role's line is its label, its mentions joined by spaces, then its unknowns joined by spaces |
| StatusDiff.NotifyEvents | src/notion_monitor.py:275-330 | a notification is the silent post of its content followed by the patch clearing that page's 強制通知 flag |
| StatusDiff.ResetForceBody | src/notion_monitor.py:330 | update_page_property(page_id, 強制通知, False) sends a checkbox False body for that property |
| StatusDiff.Monitor | src/notion_monitor.py:282-286 | a response that is not a dict raises AttributeError before anything is sent |
| StatusDiff.MonitorState | src/notion_monitor.py:284-332 | the saved state's keys are exactly the titled pages' ids, so ids absent from this fetch are dropped; with distinct ids each maps to its current status id |
| StatusDiff.LoopState | src/notion_monitor.py:286-332 | a saved run read every page and saved exactly the state recorded from the titled pages |
| StatusDiff.LoopNotified | src/notion_monitor.py:326-330 | a saved run patches exactly the pages that pass the diff, in page order |
| StatusDiff.PostThenReset | src/notion_monitor.py:329-330 | every post is immediately followed by the patch that clears the force flag |
| StatusDiff.LoopAlternates | src/notion_monitor.py:329-330 | the events of any run, saved or crashed, alternate post and force-reset patch |
| StatusDiff.MonitorIdempotent | src/notion_monitor.py:322-326 | with no forced page and distinct ids, re-running from the saved state as held in memory sends nothing and saves the same state |
| StatusDiff.MonitorIdempotentReloaded | src/notion_monitor.py:79-87 | with string page ids as well, re-running from the state json.load reads back from the saved file is just as quiet |
| NotifiedSet.AssigneeNames | src/main.py:30-31 | each assignee relation id must be a member-map key, or the lookup raises KeyError; names follow relation order |
| NotifiedSet.Read | src/main.py:16-31 | a record with a falsy id, an id already notified, or a falsy title (None or an empty string) is skipped before anything else is read; a reading carries the record's id, title and deadline, and the names are the member titles of its 担当者 relation entries |
| NotifiedSet.Dispatch | src/main.py:35-40 | kind タスク sends the task message and kind 会議 the conference message, both with the deadline; any other kind is skipped |
| NotifiedSet.Step | src/main.py:16-42 | a sent record has a fresh, truthy id and a title, and its kind is タスク or 会議 |
| PyJson.SetDefault | src/main.py:42 | an existing entry is never overwritten; a new key gets the given value; the keys grow by exactly that key |
| NotifiedSet.Main | src/main.py:7-15 | an empty member map ends the run before any fetch or send; a failing member fold raises first |
| NotifiedSet.MainCorrected | src/main.py:6-45 | a saved run keeps every earlier entry, adds exactly one new id per message sent, and every new entry is the id of some fetched record mapped to that record's title |
| NotifiedSet.LoopGrows | src/main.py:21-42 | the state only grows, each post adds exactly one new id, and every new entry is some record's id holding that record's title |
| NotifiedSet.StepCarries | src/main.py:42 | the entry a sent record adds is that record's id and title |
| NotifiedSet.LoopOnlyPosts | src/main.py:35-38 | every event of a run is a webhook post; this script never patches a page |
| NotifiedSet.LoopIdempotent | src/main.py:21-42 | re-running over the same records from a state holding the saved keys skips every record |
| NotifiedSet.MainIdempotent | src/main.py:21-42 | a second run from the saved state as held in memory sends nothing and saves the same state |
| NotifiedSet.MainIdempotentReloaded | src/utils.py:6-17 | when the saved ids are strings, a second run from the state json.load reads back from the saved file sends nothing and saves the same state |
| NotifiedSet.IntIdReadAgainAfterReload | src/utils.py:6-17 | an integer id 5 is skipped from the in-memory state but read again from the reloaded one, whose key is the string "5" |
| Effects.DumpedKey | src/utils.py:12-17 | json.dump writes a string key as it is and an int, bool or None key as a non-string text starting with a sign, digit, t, f or n; a list or dict key has none |
| Effects.Reloaded | src/utils.py:6-17 | after the file round trip every key is a string: the text json.dump wrote for an original key, holding that key's value, and nothing else |
| Effects.ReloadedStringKeys | src/notion_monitor.py:79-87 | a state keyed by strings comes back from its file unchanged |
| Effects.ReloadedIntKey | src/notion_monitor.py:79-87 | an integer key comes back as its decimal string, and the integer key itself is gone |
| NotifiedSet.MainAsWritten | src/main.py:33 | the script as written never sends and never changes the state |
| NotifiedSet.AsWrittenNeverSends | src/main.py:33 | with the undefined accessor every loop run emits no event and saves its starting state |
| NotifiedSet.AsWrittenCrashesWhereCorrectedSends | src/main.py:33 | every record the corrected script sends makes the as-written script raise AttributeError |
| NotifiedSet.CorrectedSendsSampleTask | src/main.py:16-40 | a concrete タスク record with id "a", title "T", a Sunday deadline and no assignees is sent by the corrected script with any non-empty user map, and makes the as-written script raise AttributeError |

## Left out

- HTTP: fetching the databases, the member list and single pages, and the POST and PATCH requests. Responses are inputs; posts and patches are events. HTTP errors are not modelled.
- File I/O: loading and saving both state files and the user map. Their contents are inputs and outputs. The path constants `utils.py` reads are missing from `config.py`; that only affects this I/O.
- Environment loading (dotenv, `os.getenv`) and the request headers.
- `datetime.fromisoformat` is modelled only for YYYY-MM-DD[THH:MM[:SS[suffix]]]. A suffix starting with '.', ',', '+', '-' or 'Z' is accepted unchecked. Time zones are not modelled. Years below 1000 are outside the padding claim, since `strftime('%Y')` differs between platforms there.
- `ask_continue`'s `input()`, printing and `exit()`: the typed lines are a parameter, so its recursion runs over finite input. Nothing in the modelled code calls it.
- Floats: `_format_property_value`'s float branch and any float in a record. Numbers are integers.
- `str()` of a list or dict inside an f-string or `_format_property_value` (Python's repr) is not modelled. It yields the error `ReprNotModelled`.
- Python's `True == 1` and `hash(True) == hash(1)`: state and member-map keys are compared as JSON values, so a boolean and an integer key never collide.
- The user map is typed as string to string. A non-string Discord id in the JSON file is not modelled.
- Console prints (unknown Discord ids, the empty member list message) are not modelled.
- `get_stateDate` (src/notion_client.py:68-69) reads `config.PROP_START_DATE`, which `config.py` does not define. Nothing calls it.
- `fetch_db_only_status_progress` is modelled through its filter body only. The notified checkbox name `config.PROP_NOTIFIED_NAME` is also missing from `config.py`, so `NotionClient.ProgressFilter` takes it as a parameter.
- Overdue or late-task handling and per-item confirmation appear nowhere in the code, so they are not modelled.
- Iterating a dict where the scripts expect a list visits its string keys. The modelled loops fail on the first such key, so a non-empty dict is reported directly with the error that loop raises.
- StatusDiff.MonitorState: the status id of each key is stated only for distinct page ids. With a repeated id the last page's status is kept, as in the script.
- StatusDiff.MonitorIdempotent: assumes distinct page ids. With repeated ids whose statuses differ, the second run may notify again. It also starts the second run from the saved state as held in memory. StatusDiff.MonitorIdempotentReloaded covers the state read back from the file, for string page ids only, because json.dump turns an int, bool or None key into a string.
- NotifiedSet.MainIdempotent: starts the second run from the saved state as held in memory. NotifiedSet.MainIdempotentReloaded covers the state read back from the file for string ids only. NotifiedSet.IntIdReadAgainAfterReload shows how an integer id loses its skip.
- Effects.Reloaded: a state in which two keys are written as the same text (5 and "5", say) is not modelled. json.load then keeps the later entry in dict insertion order, and the model's maps have no order. Float keys are not modelled either.
- The constant STATUS_ID_INPROGRESS sits in `Config` alongside the other names, although the script defines it in src/notion_monitor.py:56.

## Findings

| source | as written | input that shows it | evidently intended | confidence | as-written member | corrected member |
|---|---|---|---|---|---|---|
| src/main.py:33 | calls `ntn.get_select`, which `notion_client.py` does not define, so the call raises AttributeError | any in-progress record with a truthy id not yet notified, a title, a deadline and resolvable assignees | `ntn.get_select_value(record, 種類)` (src/notion_client.py:53-57) | high; not executed | NotifiedSet.MainAsWritten, NotifiedSet.AsWrittenCrashesWhereCorrectedSends | NotifiedSet.MainCorrected |

Line 28 of `main.py` passes the deadline, not a start date, to the conference message too. This is modelled as written. `config.py` defines no start-date property name, so the intended one is not known.
