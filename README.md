# Serene support chat and mood log, modelled in Dafny

The system is a mental-wellness companion with two back ends and two front ends.

- **PHP back end.** `chat.php` answers each chat message. It checks for crisis phrases, picks a rule-based reply and stores both sides of the turn in `chat_messages`. `mood.php` adds, lists, deletes and summarises entries in `mood_entries`.
- **Edge function.** A Supabase function runs the same crisis check on the latest user message. On a crisis it returns a fixed safety script. Otherwise it forwards the conversation to an AI gateway and maps the gateway's status to a response.
- **PHP front end.** `chat.js` is the chat window: a loading guard, a markdown-like formatter and the submit handler. `app.js` holds the mood emoji and label lookups and the date-format choice.
- **React client.** The chat page runs one turn per message and logs a mood when one is reported. The sidebar groups conversations by date and renames them. It also has an input box with a submit guard, message bubbles that bold the text between `**` markers, a mood picker and a mood chart.

The project has one module per source file, plus shared modules:

- `Text`: ASCII lower-casing, substring search, and PHP and JavaScript trimming.
- `Crisis`: the keyword detector and the safety script, which both back ends declare identically.
- `Moods`: the five mood keys.
- `Ordering`: filter, stable insertion sort and reverse.

Where the source updates state step by step, the model is a class with `modifies` clauses:

- the `chat_messages` table;
- the `mood_entries` table;
- the React chat page;
- the PHP chat window;
- the sidebar's rename controls;
- the chat input box.

The date grouping keeps the source's push loop, and a loop invariant ties it to a filter-based specification. The rest of the model is functions and lemmas.

Environment inputs become parameters or datatypes of outcomes:

- the session user;
- request bodies;
- the clock, as integer timestamps;
- the calendar predicates `isToday`, `isYesterday` and `isThisWeek`;
- the AI gateway's result;
- the result of `supabase.functions.invoke`.

## Model

| member | source | states |
|---|---|---|
| Crisis.AnyKeywordIn | exports/psybot-php/api/chat.php:50-55 | The keyword loop answers true exactly when some keyword of the list occurs in the text. |
| Crisis.DetectCrisis | exports/psybot-php/api/chat.php:46-56 | A message is flagged exactly when some keyword of the list occurs in the lower-cased message; an empty list flags nothing. |
| Crisis.DetectCrisisIff | exports/psybot-php/api/chat.php:46-56 | Crisis is detected exactly when some keyword occurs, at some position, in the lower-cased message. |
| Crisis.DetectCrisisIgnoresCase | supabase/functions/chat/index.ts:14-17 | Two messages that differ only in ASCII letter case get the same verdict. |
| Crisis.DetectCrisisExtends | supabase/functions/chat/index.ts:16 | Adding text before or after a detected message never hides the keyword. |
| Crisis.MixedCaseExampleDetected | supabase/functions/chat/index.ts:8-17 | With the declared twelve keywords, "I Want To Die" is detected. |
| PhpChatApi.FirstReply | exports/psybot-php/api/chat.php:95-102 | The reply is the default, or the reply of some key of the table that occurs in the text. |
| PhpChatApi.GenerateAIResponse | exports/psybot-php/api/chat.php:78-103 | The reply is the default, or the reply of a table key occurring in the lower-cased message. It is never the crisis script. |
| PhpChatApi.FirstReplyPicksFirst | exports/psybot-php/api/chat.php:95-99 | When key j is the first key of the table that occurs in the text, its reply is returned. |
| PhpChatApi.FirstReplyDefault | exports/psybot-php/api/chat.php:101-102 | When no key occurs, the fixed default reply is returned. |
| PhpChatApi.HelloBeatsHi | exports/psybot-php/api/chat.php:82-84 | A message containing "hello" gets the hello reply, even though it also contains "hi". |
| PhpChatApi.HiShadowsHappy | exports/psybot-php/api/chat.php:84-88 | A message containing "hi" (such as "this") never gets the "happy" reply. |
| PhpChatApi.ReplyIgnoresHistory | exports/psybot-php/api/chat.php:78-103 | The reply depends on the message alone, whatever history is passed. |
| PhpChatApi.AsWrittenNeverDetects | exports/psybot-php/api/chat.php:23-47 | With the keyword list in effect at dispatch time, which is empty, no message is ever flagged. |
| PhpChatApi.AsWrittenMissesCrisisExample | exports/psybot-php/api/chat.php:37-41 | "I Want To Die" is flagged by the declared list but not by the list in effect. |
| PhpChatApi.HistoryOf | exports/psybot-php/api/chat.php:157 | The history holds exactly the user's rows, as a permutation of them, in ascending `created_at`. |
| PhpChatApi.IncomingMessage | exports/psybot-php/api/chat.php:110 | The message is the body with only PHP white space removed before and after it, and none left at either end. It is empty when the field is absent or all white space. |
| PhpChatApi.RecentHistory | exports/psybot-php/api/chat.php:132-134 | The context query returns at most ten rows, all of them the user's. |
| PhpChatApi.AssistantContent | exports/psybot-php/api/chat.php:128-137 | The assistant text is the safety script exactly on a crisis. Otherwise it is the table reply to the lower-cased message, whatever the history. |
| PhpChatApi.SendTurn | exports/psybot-php/api/chat.php:108-148 | The reply is "empty" exactly when the trimmed message is "" or "0", and then nothing is stored. Otherwise exactly two rows are stored, user then assistant, for the session user, both carrying the one crisis flag. The reply echoes the stored content and flag, and the content is the safety script on a crisis. |
| PhpChatApi.BlankOrZeroRefused | exports/psybot-php/api/chat.php:110-115 | A message of white space only, or one that trims to "0", is refused and stores nothing. |
| PhpChatApi.NonCrisisUsesKeywordReply | exports/psybot-php/api/chat.php:128-137 | A non-crisis turn answers with the table reply to the trimmed message and the flag false. |
| PhpChatApi.ChatMessagesTable.SendMessage | exports/psybot-php/api/chat.php:108-148 | The two inserts append exactly the rows of `SendTurn` to the table, and the method returns its reply. |
| PhpChatApi.ChatMessagesTable.GetHistory | exports/psybot-php/api/chat.php:153-162 | The result holds a row exactly when the row is in the table and belongs to the user, as often as it is stored, sorted by `created_at`. |
| PhpChatApi.ChatMessagesTable.Handle | exports/psybot-php/api/chat.php:15-32 | Without a session the answer is 401 and the table is unchanged. "send" runs the turn with the declared keyword list. "history" returns the user's history. Any other action is refused, with the table unchanged. |
| EdgeChat.LatestUserMessage | supabase/functions/chat/index.ts:44 | A latest user message, when present, is a user message of the request. |
| EdgeChat.IsCrisisRequest | supabase/functions/chat/index.ts:45 | A crisis request holds a user message in which a crisis keyword occurs. |
| EdgeChat.Plan | supabase/functions/chat/index.ts:37-87 | The gateway is asked exactly when a key is configured and the request is not a crisis. An immediate answer is the 500 configuration error for a missing key, or the flagged script for a crisis. |
| EdgeChat.Complete | supabase/functions/chat/index.ts:92-126 | After the gateway call the status is 200, 402, 429 or 500. A reply comes exactly with 200, and it is never flagged as crisis and never empty. |
| EdgeChat.Handle | supabase/functions/chat/index.ts:35-126 | The whole handler answers 200, 402, 429 or 500, with a non-empty reply exactly on 200, and a missing key always gives 500. |
| EdgeChat.LatestUserMessageNone | supabase/functions/chat/index.ts:44 | There is no latest user message exactly when no message has role "user". |
| EdgeChat.LatestUserMessageIsLast | supabase/functions/chat/index.ts:44 | The latest user message is a user message with no user message after it. |
| EdgeChat.OnlyLatestUserMessageCounts | supabase/functions/chat/index.ts:44-45 | The crisis verdict is that of the last user message alone; a crisis in an earlier message is ignored. |
| EdgeChat.NoUserMessageNoCrisis | supabase/functions/chat/index.ts:45 | Without any user message there is no crisis. |
| EdgeChat.MissingKeyFirst | supabase/functions/chat/index.ts:37-41 | A missing or empty API key gives the 500 error before crisis detection, even for a crisis message, and no gateway request is made. |
| EdgeChat.CrisisShortCircuit | supabase/functions/chat/index.ts:47-56 | On a crisis the response is the script with `isCrisis` true, with no gateway request, so no gateway outcome can change it. |
| EdgeChat.UpstreamMessages | supabase/functions/chat/index.ts:82-87 | Otherwise the gateway receives the system prompt followed by the incoming messages, unchanged and in order. |
| EdgeChat.ReplyContent | supabase/functions/chat/index.ts:113 | The reply is the first choice's content when present and non-empty, else the fixed fallback, and never empty. |
| EdgeChat.GatewayStatusMapping | supabase/functions/chat/index.ts:92-110 | An ok status gives 200 with a non-crisis reply; 429 and 402 pass through with their messages; any other failure gives 500. Each is an if-and-only-if. |
| EdgeChat.ReplyFlagOnlyOnScript | supabase/functions/chat/index.ts:47-119 | A reply flagged as crisis is always the fixed script, for a crisis request. |
| ChatPage.Payload | src/pages/Chat.tsx:62-65 | The request payload maps every message, in order, to its role and content. |
| ChatPage.PayloadOfTurn | src/pages/Chat.tsx:62-65 | The payload of a turn is the earlier conversation followed by the new message, which comes last. |
| ChatPage.MoodNote | src/pages/Chat.tsx:90 | The note is the prefix, the content when it has at most 80 characters, or its first 80 followed by "..." when longer, and a closing quote. |
| ChatPage.ShowsCrisisBannerIff | src/pages/Chat.tsx:133 | The crisis banner shows exactly when some message is flagged. |
| ChatPage.BannerAfterAppend | src/pages/Chat.tsx:133 | Appending a message turns the banner on when the message is flagged, and never turns it off. |
| ChatPage.InvokeOf | src/pages/Chat.tsx:57-68 | A successful invoke of the edge function never reports a detected mood. |
| ChatPage.EdgeFunctionNeverLogsMood | src/pages/Chat.tsx:86-92 | A turn answered by the edge function never logs a mood. |
| ChatPage.RateLimitIsFailure | src/pages/Chat.tsx:68 | The edge function's rate-limit answer reaches the page as an invoke error. |
| ChatPage.ChatPage.BeginTurn | src/pages/Chat.tsx:39-67 | Without a user nothing changes. Otherwise the user's message is shown, loading starts, the user row is inserted, and the payload is the earlier messages plus the new one. |
| ChatPage.ChatPage.FinishTurn | src/pages/Chat.tsx:68-109 | On an error: only the failure toast, with no assistant message and no insert. On data: one assistant message carrying the response's flag, one assistant insert, a mood insert exactly when a mood is truthy, and a crisis toast exactly on a crisis. Loading ends on both paths. |
| ChatPage.ChatPage.SendMessage | src/pages/Chat.tsx:39-110 | Without a user nothing changes. Otherwise the user message is shown and inserted, and on data one assistant message and insert follow, with a mood insert exactly when a mood is truthy. The toasts gain the failure toast on an error, the crisis toast on a crisis reply, and nothing otherwise. Loading is off afterwards. |
| ChatFormat.FindOnLine | exports/psybot-php/js/chat.js:142 | A lazy match on one line: a found position holds the pattern, with no line terminator before it. |
| ChatFormat.FindOnLineFirst | exports/psybot-php/js/chat.js:142 | The search is leftmost: a match on the first line is found at its own position or earlier. |
| ChatFormat.Newlines | exports/psybot-php/js/chat.js:148 | After the line-break step no '\n' remains. |
| ChatFormat.NewlinesLeaveNoTerminator | exports/psybot-php/js/chat.js:148 | When '\n' is the only line terminator of the input, the line-break step leaves none. |
| ChatFormat.Bullets | exports/psybot-php/js/chat.js:151 | The bullet step introduces no '\n'. |
| ChatFormat.FormatContent | exports/psybot-php/js/chat.js:140-154 | The formatted content never contains '\n'. |
| ChatFormat.BulletsInsideLine | exports/psybot-php/js/chat.js:151 | Inside a line, the bullet step changes nothing. |
| ChatFormat.BulletsOneLine | exports/psybot-php/js/chat.js:151 | On a single line, only a leading "- " becomes "• ". |
| ChatFormat.Bold | exports/psybot-php/js/chat.js:142 | The bold step adds no line terminator other than '\n'. |
| ChatFormat.Links | exports/psybot-php/js/chat.js:145 | The link step adds no line terminator other than '\n'. |
| ChatFormat.TagsKeepOnlyNewlines | exports/psybot-php/js/chat.js:142-145 | The strong and anchor tags add no line terminator. |
| ChatFormat.BulletOnlyAtFront | exports/psybot-php/js/chat.js:148-151 | Line breaks are rewritten before bullets, so for content whose only line terminator is '\n', "- " becomes "• " only at the very front. |
| ChatFormat.BoldIdentity | exports/psybot-php/js/chat.js:142 | Text with no bold match is left unchanged by the bold step. |
| ChatFormat.LinksIdentity | exports/psybot-php/js/chat.js:145 | Text with no link match is left unchanged by the link step. |
| ChatFormat.NewlinesIdentity | exports/psybot-php/js/chat.js:148 | Text with no line terminator is left unchanged by the line-break step. |
| ChatFormat.FormatContentIdentity | exports/psybot-php/js/chat.js:140-154 | Content with no bold match, no link match, no line terminator and no leading "- " is returned unchanged. |
| PhpChatClient.AssistantMessage | exports/psybot-php/js/chat.js:95-106 | A settled request adds one assistant message. It is the formatted content on success, or one of two fixed apologies on an error body or an exception. It has the crisis style exactly when the response is flagged. |
| PhpChatClient.SomethingWentWrongVerbatim | exports/psybot-php/js/chat.js:96 | The error apology is shown verbatim. |
| PhpChatClient.CouldNotProcessVerbatim | exports/psybot-php/js/chat.js:106 | The exception apology is shown verbatim. |
| PhpChatClient.NoMarkupIdentity | exports/psybot-php/js/chat.js:140-154 | Text without '*', '[' or a line terminator, and not starting with "- ", is returned unchanged. |
| PhpChatClient.ChatView.LoadHistory | exports/psybot-php/js/chat.js:34-51 | A non-empty history hides the welcome and appends every stored message, in order and formatted. An empty one changes nothing. |
| PhpChatClient.ChatView.SendMessage | exports/psybot-php/js/chat.js:65-88 | While loading, nothing changes. Otherwise the welcome is hidden, the user message is shown, loading starts with the button disabled, and the message is posted. |
| PhpChatClient.ChatView.ReceiveResponse | exports/psybot-php/js/chat.js:90-111 | Exactly one assistant message is appended. The crisis alert turns on only for a flagged content response. Loading ends and the button is re-enabled. |
| PhpChatClient.ChatView.SendAndReceive | exports/psybot-php/js/chat.js:65-112 | A whole call adds the user message then exactly one assistant message, posts once, and ends not loading. |
| PhpChatClient.ChatView.SendQuickMessage | exports/psybot-php/js/chat.js:56-60 | A quick prompt is sent exactly when not loading: the welcome is hidden, the message is shown and posted, loading starts, and the alert and input are kept. Otherwise nothing changes. |
| PhpChatClient.ChatView.Submit | exports/psybot-php/js/chat.js:19-28 | The trimmed input is sent exactly when it is non-empty and not loading: the welcome is hidden, the message is shown and posted, loading starts, the alert is kept and the input is cleared. Otherwise nothing changes. |
| ConversationSidebar.PushedIsFilter | src/components/chat/ConversationSidebar.tsx:34-40 | The pushes into one group collect exactly the conversations of that bucket, in input order. |
| ConversationSidebar.GroupConversations | src/components/chat/ConversationSidebar.tsx:26-43 | The loop's result equals the filter-based specification `Grouped`. |
| ConversationSidebar.GroupsInFixedOrder | src/components/chat/ConversationSidebar.tsx:27-42 | No returned group is empty, and the groups come in the fixed order Today, Yesterday, This Week, Older. |
| ConversationSidebar.GroupItemsInInputOrder | src/components/chat/ConversationSidebar.tsx:36-39 | The items of a group are its bucket's conversations in input order. |
| ConversationSidebar.EachConversationInItsGroup | src/components/chat/ConversationSidebar.tsx:34-40 | Each conversation is in the group of the first calendar predicate that holds for it, and in no other group. |
| ConversationSidebar.TotalItemsNonEmpty | src/components/chat/ConversationSidebar.tsx:42 | Dropping empty groups loses no item. |
| ConversationSidebar.BucketsCoverInput | src/components/chat/ConversationSidebar.tsx:34-40 | The four buckets together hold as many conversations as the input. |
| ConversationSidebar.GroupedCountsAll | src/components/chat/ConversationSidebar.tsx:42 | The returned groups together hold exactly as many items as the input. |
| ConversationSidebar.RenameState.StartEdit | src/components/chat/ConversationSidebar.tsx:59-62 | Editing starts on the conversation's id, with its current title. |
| ConversationSidebar.RenameState.SetEditTitle | src/components/chat/ConversationSidebar.tsx:150 | Typing changes only the edited title. |
| ConversationSidebar.RenameState.ConfirmEdit | src/components/chat/ConversationSidebar.tsx:64-69 | The rename, with the trimmed title, happens exactly when a non-empty id is being edited and the trimmed title is non-empty. Editing ends in every case. |
| ConversationSidebar.RenameState.CancelEdit | src/components/chat/ConversationSidebar.tsx:161 | The X button ends editing without renaming. |
| ConversationSidebar.RenameState.KeyDown | src/components/chat/ConversationSidebar.tsx:153-156 | Enter confirms, Escape cancels, and any other key changes nothing. |
| ChatInput.ChatInput.SetMessage | src/components/chat/ChatInput.tsx:29 | Typing changes the text and sends nothing. |
| ChatInput.ChatInput.HandleSubmit | src/components/chat/ChatInput.tsx:14-20 | The trimmed text is sent exactly once, then the box is cleared, exactly when the button is enabled. Otherwise nothing changes. What is sent is non-empty with no white space at either end. |
| ChatInput.ChatInput.HandleKeyDown | src/components/chat/ChatInput.tsx:21-26 | Enter without Shift submits. Shift+Enter and every other key change nothing. |
| ChatInput.SendDisabledIff | src/components/chat/ChatInput.tsx:31 | The button is disabled exactly when the text is all white space or the prop is set. |
| ChatMessage.Split | src/components/chat/ChatMessage.tsx:46 | Splitting on "**" always yields at least one piece. |
| ChatMessage.JoinSplit | src/components/chat/ChatMessage.tsx:46 | Joining the pieces with "**" gives back the content. |
| ChatMessage.ConcatSplit | src/components/chat/ChatMessage.tsx:46 | The pieces concatenate to the content with every "**" removed, and there is one more piece than there are non-overlapping markers. |
| ChatMessage.PiecesHaveNoMarker | src/components/chat/ChatMessage.tsx:46 | No piece contains "**". |
| ChatMessage.NoMarkerOnePiece | src/components/chat/ChatMessage.tsx:46 | Content without "**" is a single piece. |
| ChatMessage.Segments | src/components/chat/ChatMessage.tsx:46-52 | There is one segment per piece, holding that piece; odd positions are bold and even ones plain. |
| ChatMessage.SegmentsShowContent | src/components/chat/ChatMessage.tsx:46-52 | The segments show the content minus its markers; content without markers renders as one plain segment. |
| ChatMessage.MessageStyle | src/components/chat/ChatMessage.tsx:11-43 | The crisis bubble and the alert avatar apply exactly to flagged assistant messages. User messages always get the gradient style and the user icon. |
| Moods.ParseMood | exports/psybot-php/api/mood.php:49-51 | A parsed key is the key of the mood it names. |
| Moods.ParseKey | exports/psybot-php/api/mood.php:49 | Every mood's key parses back to that mood, so the keys are distinct. |
| Moods.ValidMoodsAreKeys | exports/psybot-php/api/mood.php:49-51 | A string is a valid mood exactly when it is one of the five keys. |
| MoodSelector.Find | src/components/mood/MoodSelector.tsx:42 | A found option is in the table with that type; on no match, no option has it. |
| MoodSelector.OptionsFollowMoods | src/components/mood/MoodSelector.tsx:10-16 | Five options with five distinct types, in the order very_sad, sad, neutral, happy, very_happy. |
| MoodSelector.FindMood | src/components/mood/MoodSelector.tsx:41-47 | Each known mood finds the option at its own position. |
| MoodSelector.FindUnknown | src/components/mood/MoodSelector.tsx:42 | A string that is not one of the five types finds no option. |
| MoodSelector.FindByKey | src/components/mood/MoodSelector.tsx:42 | A known mood finds the option at its own position; anything else finds none. |
| MoodSelector.GetMoodEmoji | src/components/mood/MoodSelector.tsx:41-43 | A known mood gets its own option's emoji; anything else gets the neutral option's. |
| MoodSelector.GetMoodLabel | src/components/mood/MoodSelector.tsx:45-47 | A known mood gets its own option's label; anything else gets the neutral option's. |
| AppUtils.GetMoodEmoji | exports/psybot-php/js/app.js:70-79 | Each of the five keys gets the picker's emoji for that mood; any other key gets the neutral face. |
| AppUtils.GetMoodLabel | exports/psybot-php/js/app.js:84-93 | Each of the five keys gets the picker's label for that mood; any other key gets "Unknown". |
| AppUtils.EmojiAgreesWithSelector | exports/psybot-php/js/app.js:70-79 | For every key, known or not, the PHP front end shows the same emoji as the React picker. |
| AppUtils.LabelAgreesWithSelector | exports/psybot-php/js/app.js:84-93 | The labels agree on the five moods. An unknown key is "Unknown" here but "Neutral" in the picker. |
| AppUtils.FormatDateMonotone | exports/psybot-php/js/app.js:49-65 | An older timestamp never gets a more recent-looking form. |
| AppUtils.FormatDate | exports/psybot-php/js/app.js:49-65 | Under 86 400 000 ms gives the time, from then to under 604 800 000 ms the weekday, otherwise the full date; an unparsable date gives the full date. Each band is an if-and-only-if. |
| AppUtils.FormatDateBounds | exports/psybot-php/js/app.js:55-60 | Both bounds are strict: exactly a day old gives the weekday, exactly a week old the full date, and a future date gives the time. |
| MoodChart.ChartValue | src/components/mood/MoodChart.tsx:13-33 | The five moods chart as 1 to 5 in order from saddest to happiest, anything else as 3, so every value lies in [1, 5]. |
| MoodChart.ValueLabelsMatchPicker | src/components/mood/MoodChart.tsx:13-27 | The label of each mood's value is that mood's picker label. |
| MoodChart.ChartData | src/components/mood/MoodChart.tsx:30-36 | The chart data has one point per entry, in reverse order, with values in [1, 5]. |
| MoodChart.Render | src/components/mood/MoodChart.tsx:38-44 | The placeholder is rendered exactly when there are no entries; otherwise every entry is charted, oldest first. |
| MoodApi.ListMoods | exports/psybot-php/api/mood.php:77-87 | An entry is listed exactly when it is the user's and no older than `days` days, as often as it is stored, newest first. |
| MoodApi.Trend | exports/psybot-php/api/mood.php:136-144 | The trend holds exactly the user's entries of the last seven days, as often as they are stored, oldest first. |
| MoodApi.Distribution | exports/psybot-php/api/mood.php:126-133 | Each pair counts the user's rows of one valid mood and is positive. Every mood the user has appears exactly once, in the order of the five moods. |
| MoodApi.CountsCoverUser | exports/psybot-php/api/mood.php:126-133 | With valid moods, each of the user's rows is counted under exactly one mood. |
| MoodApi.DistributionSumsToEntries | exports/psybot-php/api/mood.php:126-133 | The distribution's counts add up to the user's number of entries. |
| MoodApi.MoodTable.AddMood | exports/psybot-php/api/mood.php:43-67 | A mood outside the five keys (a missing one reads as "") is refused and nothing is stored. Otherwise exactly one row is stored for the user, with the next id; missing notes are stored as "". |
| MoodApi.MoodTable.GetMoods | exports/psybot-php/api/mood.php:72-90 | The listing of the last `days` days, thirty by default: exactly the user's entries of that period, as often as they are stored, newest first. |
| MoodApi.MoodTable.DeleteMood | exports/psybot-php/api/mood.php:95-116 | Id 0 is refused with nothing deleted. Otherwise only the row matching both the id and the user is removed, and success is reported exactly when such a row existed. The table invariant holds afterwards. |
| MoodApi.MoodTable.GetMoodStats | exports/psybot-php/api/mood.php:121-150 | The distribution is the per-mood count and sums to the user's entry count. The trend holds exactly the user's last seven days, as often as they are stored, oldest first. |
| MoodApi.MoodTable.Handle | exports/psybot-php/api/mood.php:15-38 | Without a session the answer is 401 and nothing changes. "list" and "stats" change nothing, and an unknown action is refused. A saved "add" stores one row with the next id and advances the counter; a refused one changes nothing. "delete" keeps the counter: id 0 is refused, otherwise the matching row is removed, with success reported exactly when it existed and the not-found answer otherwise. |
| MoodApi.FilterKeepsOrder | exports/psybot-php/api/mood.php:108-109 | Deleting keeps the table invariant: ids stay in range and increasing, and moods stay valid. |
| MoodApi.DeleteSparesOthers | exports/psybot-php/api/mood.php:108-109 | Other users' entries, and the user's other entries, survive a delete. |
| MoodApi.DeleteRemovesAtMostOne | exports/psybot-php/api/mood.php:108-115 | Because ids are unique, a delete removes at most one row. |

## Left out

- Lower-casing is ASCII-only. PHP `strtolower` in current versions agrees with that, but JavaScript `toLowerCase` also folds non-ASCII letters, and the model does not.
- Strings are sequences of Unicode code points. JavaScript's `substring(0, 80)` and `length` count UTF-16 units, so the mood note of content holding astral characters is cut at a different point.
- JavaScript `trim` is modelled with the fixed list of ECMAScript white space and line terminators, as of the current Unicode space separators. PHP `trim` uses its six default characters.
- HTTP, JSON decoding, CORS and headers are not modelled. Request bodies arrive already parsed, as optional strings. A malformed body, or a `messages` value that is not an array, is not represented. The edge function's `console` logging is left out.
- The AI gateway request, `supabase.functions.invoke`, `fetch` and the database drivers are replaced by outcome datatypes and table appends. Supabase insert errors, which the page ignores, are not represented.
- `created_at`, `NOW()` and `DATE_SUB` are integer timestamps (seconds on the server, milliseconds in `app.js`). Calendar dates, `DATE()`, and the "MMM d" and locale formats are not modelled. The date-fns predicates are parameters.
- SQL rows with equal `created_at` are ordered stably in insertion order; the database does not fix their order. `GROUP BY mood` is modelled in the order of the five moods. `AUTO_INCREMENT` is a counter field.
- The `intval` parsing of `days` and `id` is not modelled; both arrive as integers. PHP's loose `in_array` comparison of non-string JSON values is out, so a mood is a string.
- Lookups in JavaScript objects ignore inherited keys such as "constructor".
- The DOM, the loading indicator, scrolling, avatars and CSS classes are left out. The crisis styling of a message is kept as a flag.
- The bullet step also fires after '\r', U+2028 and U+2029, because JavaScript's multi-line `^` matches there. `BulletOnlyAtFront` therefore requires content whose only line terminator is '\n'.
- Authentication, database configuration, the mood page and the landing page are not part of this model.
- Some behaviour appears in no source file of this model: keyword mood buckets, conversation auto-titling, conversation create/delete persistence, and any producer of `detectedMood`. None of it is modelled; the model follows the code.
- Concurrent requests are not modelled.
- PhpChatApi.RecentHistory: states that at most ten of the user's rows are passed, not that they are the ten newest. `generateAIResponse` never reads them.

## Findings

| source | as written | input that shows it | evidently intended | confidence | as-written member | corrected member |
|---|---|---|---|---|---|---|
| exports/psybot-php/api/chat.php:23-47 | `$CRISIS_KEYWORDS` is assigned by top-level code placed after the action dispatch. So while `sendMessage` runs, `global $CRISIS_KEYWORDS` in `detectCrisis` is unset, and the loop finds no keyword. | POST `{"message": "I Want To Die"}` to `chat.php?action=send`: it is not flagged, and the keyword reply is returned instead of the safety script. | Detection runs against the twelve declared keywords, as the edge function does. | not executed | PhpChatApi.AsWrittenMissesCrisisExample | PhpChatApi.ChatMessagesTable.Handle |
