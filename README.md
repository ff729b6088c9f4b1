# CivicLens core, modelled in Dafny

CivicLens is a civic-issue reporting web app. Citizens file reports, follow
them, talk about them in a community feed and get notified when something
changes. Officials and administrators triage the reports. This project
models the parts of the app that decide something:

- the notification pipeline: channel gating, the permission rule, the
  stored record, and the live unread feed with its counter
- the AI classification helpers: the department table, the model choice,
  JSON extraction, field defaulting, request shapes and error texts
- the list, set, string and counter rules inside the UI components: report
  form tags and submission, community upvotes and posts, the before/after
  carousel, map markers, the admin and citizen dashboards, the official's
  assignment form, the profile page and the colour theme

Each source file is one Dafny module:

| module | file | source |
|---|---|---|
| `Notifications` | `notifications.dfy` | `src/lib/notifications.ts` |
| `LiveFeed` | `live_feed.dfy` | `src/hooks/useNotifications.ts` |
| `NotificationCenter` | `notification_center.dfy` | `src/components/NotificationCenter.tsx` |
| `NotificationSettings` | `notification_settings.dfy` | `src/components/NotificationSettings.tsx` |
| `GeminiApi` | `gemini_api.dfy` | the parts `src/lib/classifier.ts` and `src/lib/gemini.ts` share |
| `Classifier` | `classifier.dfy` | `src/lib/classifier.ts` |
| `Gemini` | `gemini.dfy` | `src/lib/gemini.ts` |
| `ReportForm` | `report_form.dfy` | `src/components/ReportForm.tsx` |
| `CommunityFeed` | `community_feed.dfy` | `src/components/CommunityFeed.tsx` |
| `BeforeAfter` | `before_after.dfy` | `src/components/BeforeAfter.tsx` |
| `InteractiveMap` | `interactive_map.dfy` | `src/components/GoogleInteractiveMap.tsx` |
| `ReportStats` | `report_stats.dfy` | the counts and rate shared by the three dashboards |
| `Dashboard` | `dashboard.dfy` | `src/components/Dashboard.tsx` |
| `AdminDashboard` | `admin_dashboard.dfy` | `src/components/AdminDashboard.tsx` |
| `OfficialDashboard` | `official_dashboard.dfy` | `src/components/OfficialDashboard.tsx` |
| `UserProfile` | `user_profile.dfy` | `src/components/UserProfile.tsx` |
| `Theme` | `theme.dfy` | `src/hooks/useTheme.ts` |

Three modules support the others:

- `Common`: `Option` and `Result`.
- `Text`: substring search, ASCII trimming and case mapping, decimal
  numerals, split and join, file extensions.
- `Js`: JavaScript truthiness and `||` on parsed JSON values.

## How the model is built

**Classes for components with state.** A component whose state changes is
a class. Its fields are the React state. Each handler is a method whose
`ensures` ties the new state to a pure step function of the old state, for
example `LiveFeed.AfterMarkAsRead` or `CommunityFeed.Upvote`. The lemmas
about those step functions state what the component promises.

**Outcomes as parameters.** Supabase queries, storage uploads, RPCs,
`fetch` and the browser are not called. Each call becomes a parameter that
gives its outcome:

- success or an error
- the rows returned
- the permission state
- whether a constructor throws

**Writes as logs.** The writes a handler makes are appended to a log
field, in order: inserts, upserts, deletes, RPCs and durable mark-as-read
writes. This lets the contracts state the order of the calls and which
calls are made at all.

**Where the code and its description differ, the model follows the code.**

- **Dispatch order.** The notification record is inserted *after* the push
  and the email, not before.
- **A throw aborts the insert.** If the native `Notification` constructor
  throws, the `catch` swallows the error and no record is inserted.
- **Email recipient.** The simulated email goes to the *signed-in* user's
  address (`auth.getUser`), not to the report owner.
- **The unread counter drifts.** The hook's counter is not kept equal to
  the number of unread entries. Marking the same id twice decrements it
  twice. An UPDATE event for an entry that was already read also
  decrements it. `LiveFeed.DoubleMarkAsReadDrifts` and
  `LiveFeed.UpdateOfReadEntryDrifts` exhibit both. The `*KeepsSync`
  lemmas give the conditions under which the counter stays equal.
- **Key checks differ.** `analyzeImage` does not trim the API key, so a key
  of spaces passes its check but not the chat's.
- **Values are not validated.** Neither the classifier's priority nor the
  stored theme is checked against its enum.
- **The department filter has no matching option.** It starts at "all",
  but the option values are slugs such as "all-departments", so the initial
  value matches no option.

## Model

| member | source | states |
|---|---|---|
| Notifications.LoadedPreferences | src/lib/notifications.ts:206-241 | a preference row is used as stored; no row, a store error or a thrown lookup give all six flags true |
| Notifications.RequestPermission | src/lib/notifications.ts:21-37 | the prompt appears only in the default state; the answer is true iff permission was already granted or the prompt grants it; an unsupported browser gives false |
| Notifications.ShowPush | src/lib/notifications.ts:42-63 | native notification iff permission is granted, nothing iff the browser lacks notifications, otherwise a toast with the same title and body |
| Notifications.PushTextReachesUser | src/lib/notifications.ts:48-62 | in a supported browser the push's title and body always reach the user, natively or as a toast |
| Notifications.CommentPushBodyShape | src/lib/notifications.ts:184 | the comment push body starts with "<commenter>: ", always ends in "...", carries at most 100 characters of the comment, and the whole comment when it is short |
| Notifications.RecordFor | src/lib/notifications.ts:105-112 | the stored record is unread, typed status_change or new_comment by event, for the report's owner and the report |
| Notifications.DispatchInsertsOnce | src/lib/notifications.ts:68-116 | each notify call inserts exactly one record whatever the channel flags say, and none when an earlier step threw |
| Notifications.InsertComesLast | src/lib/notifications.ts:90-112 | the insert is the last effect, after push and email, and no other effect is an insert |
| Notifications.PushIff | src/lib/notifications.ts:90-97 | a push is shown iff the master and per-kind push flags are on, the browser supports notifications and nothing threw |
| Notifications.EmailIff | src/lib/notifications.ts:99-102 | an email is sent iff the event is a status change, both email flags are on, the signed-in user has an email and nothing threw |
| Notifications.CommentNeverEmails | src/lib/notifications.ts:181-197 | a new-comment event never sends email |
| Notifications.StatusTextShared | src/lib/notifications.ts:91-110 | the push body and the stored message are the same text `Your report "<title>" is now <status>` |
| Notifications.MissingRowEnablesAll | src/lib/notifications.ts:83-88 | without a preference row a status change pushes, emails and stores one record |
| Notifications.PushOnlyScenario | src/lib/notifications.ts:90-112 | with push on and email off, every status change has exactly two effects: a native push with the status text, then the record; no email |
| Notifications.UnreadCountOf | src/lib/notifications.ts:286-299 | the unread count is the store's count, and 0 when the count is missing or the query throws |
| Notifications.Dispatcher.Push | src/lib/notifications.ts:42-63 | the push effect is appended only when wanted and supported; a throw is reported only for a granted native push whose constructor throws |
| Notifications.Dispatcher.NotifyStatusChange | src/lib/notifications.ts:68-116 | the effects appended are exactly the status-change dispatch effects |
| Notifications.Dispatcher.NotifyNewComment | src/lib/notifications.ts:160-201 | the effects appended are exactly the new-comment dispatch effects |
| LiveFeed.CountUnread | src/hooks/useNotifications.ts:46 | the number of unread entries is at most the list length |
| LiveFeed.Decrement | src/hooks/useNotifications.ts:85 | `Math.max(0, c - 1)`: never negative, one less when positive |
| LiveFeed.MarkRead | src/hooks/useNotifications.ts:107-109 | entries with the id become read; every other entry and the order are kept |
| LiveFeed.ReplaceById | src/hooks/useNotifications.ts:79-83 | entries with the id are replaced by the new record; every other entry is kept |
| LiveFeed.AllRead | src/hooks/useNotifications.ts:129 | every entry becomes read, nothing else changes |
| LiveFeed.UnreadIds | src/hooks/useNotifications.ts:116 | as many ids as there are unread entries |
| LiveFeed.UnreadIdsFromUnread | src/hooks/useNotifications.ts:116 | every id listed is the id of an unread entry |
| LiveFeed.UnreadIdsAppend | src/hooks/useNotifications.ts:116 | the ids of a list are the ids of its pieces, concatenated in list order; with the one-entry case (the id iff unread) this pins down `filter(!read).map(id)` |
| LiveFeed.RemoveId | src/hooks/useNotifications.ts:145 | the result is no longer than the list |
| LiveFeed.RemoveIdCounts | src/hooks/useNotifications.ts:145 | every entry with the id goes, and every other entry is kept exactly as often as it occurred |
| LiveFeed.RemoveIdMembers | src/hooks/useNotifications.ts:145 | an entry is kept iff it was there and has another id |
| LiveFeed.RemoveIdAppend | src/hooks/useNotifications.ts:145 | removal distributes over concatenation, so the kept entries keep their order |
| LiveFeed.FindById | src/hooks/useNotifications.ts:144 | finds an entry with the id, or reports that none has it |
| LiveFeed.FindByIdFirst | src/hooks/useNotifications.ts:144 | the entry found is the first one with the id |
| LiveFeed.AfterFetch | src/hooks/useNotifications.ts:28-48 | a failed fetch changes nothing; a successful one replaces the list with the rows (none when data is null) |
| LiveFeed.OnInsert | src/hooks/useNotifications.ts:63-67 | the new record goes in front, the rest keep their order, the counter goes up by one |
| LiveFeed.OnUpdate | src/hooks/useNotifications.ts:77-87 | matching entries are replaced; the counter drops (floored) whenever the new record is read |
| LiveFeed.AfterMarkAsRead | src/hooks/useNotifications.ts:96-111 | a store error changes nothing; success marks the id read and decrements the counter, floored at 0 |
| LiveFeed.AfterMarkAllAsRead | src/hooks/useNotifications.ts:113-131 | no-op when signed out, when nothing is unread or on error; on success all entries read and the counter 0 |
| LiveFeed.AfterDelete | src/hooks/useNotifications.ts:133-149 | on success the id's entries are removed and the counter drops only if the entry found was unread |
| LiveFeed.NeverNegative | src/hooks/useNotifications.ts:45-148 | no operation makes the counter negative |
| LiveFeed.CountAllRead | src/hooks/useNotifications.ts:129-130 | after mark-all no entry is unread |
| LiveFeed.MarkAllFlipsUnread | src/hooks/useNotifications.ts:129 | mark-all flips exactly the entries that were unread |
| LiveFeed.FetchSyncs | src/hooks/useNotifications.ts:45-46 | after a fetch the counter equals the number of unread rows |
| LiveFeed.InsertUnreadKeepsSync | src/hooks/useNotifications.ts:64-66 | inserting an unread record keeps the counter equal to the unread entries |
| LiveFeed.UpdateUnreadToReadKeepsSync | src/hooks/useNotifications.ts:78-86 | an update turning one unread entry read keeps the counter in step |
| LiveFeed.MarkAsReadKeepsSync | src/hooks/useNotifications.ts:107-110 | marking one unread entry read keeps the counter in step |
| LiveFeed.MarkAllSyncs | src/hooks/useNotifications.ts:129-130 | a successful mark-all leaves the counter in step at 0 |
| LiveFeed.DeleteKeepsSync | src/hooks/useNotifications.ts:144-148 | with unique ids, deleting keeps the counter in step |
| LiveFeed.MarkAsReadTwice | src/hooks/useNotifications.ts:107-110 | marking the same id twice changes the list once but decrements twice |
| LiveFeed.DoubleMarkAsReadDrifts | src/hooks/useNotifications.ts:107-110 | two unread entries, counter 2: marking one twice leaves the other unread with the counter at 0 |
| LiveFeed.UpdateOfReadEntryDrifts | src/hooks/useNotifications.ts:84-86 | an update for an entry already read still decrements the counter |
| LiveFeed.NotificationFeed.Fetch | src/hooks/useNotifications.ts:28-48 | signed in, the state becomes the fetch result and loading ends; signed out nothing changes |
| LiveFeed.NotificationFeed.HandleInsert | src/hooks/useNotifications.ts:63-67 | the INSERT handler's new state is the insert step |
| LiveFeed.NotificationFeed.HandleUpdate | src/hooks/useNotifications.ts:77-87 | the UPDATE handler's new state is the update step |
| LiveFeed.NotificationFeed.MarkAsRead | src/hooks/useNotifications.ts:96-111 | `markAsRead`'s new state is the mark-as-read step |
| LiveFeed.NotificationFeed.MarkAllAsRead | src/hooks/useNotifications.ts:113-131 | `markAllAsRead`'s new state is the mark-all step |
| LiveFeed.NotificationFeed.DeleteNotification | src/hooks/useNotifications.ts:133-149 | `deleteNotification`'s new state is the delete step |
| NotificationCenter.BadgeLabel | src/components/NotificationCenter.tsx:115-121 | the badge is hidden iff the count is 0 or less, one digit for 1 to 9, "9+" above |
| NotificationCenter.BadgeShowsCount | src/components/NotificationCenter.tsx:121 | a shown numeral reads back as the count |
| NotificationCenter.BadgeDistinguishes | src/components/NotificationCenter.tsx:115-121 | equal badges mean equal counts, or both above 9, or both hidden |
| NotificationCenter.CenterMarkAsRead | src/components/NotificationCenter.tsx:77-83 | the id becomes read and the counter drops, floored, even when the durable write failed |
| NotificationCenter.CenterMarkAll | src/components/NotificationCenter.tsx:85-94 | the list is every entry with `read` set and nothing else changed, the counter is 0 and in step, and exactly the unread entries flip |
| NotificationCenter.Center.FetchNotifications | src/components/NotificationCenter.tsx:53-69 | a successful fetch replaces the list only; the counter is untouched |
| NotificationCenter.Center.FetchUnreadCount | src/components/NotificationCenter.tsx:71-75 | the counter comes from the store's count query, not from the list |
| NotificationCenter.Center.HandleInsert | src/components/NotificationCenter.tsx:40-43 | the record goes in front and the counter goes up by one |
| NotificationCenter.Center.HandleMarkAsRead | src/components/NotificationCenter.tsx:77-83 | one durable write for the id, then the mark-as-read step |
| NotificationCenter.Center.HandleMarkAllAsRead | src/components/NotificationCenter.tsx:85-94 | signed in: one durable write per unread id in list order, then all read and the counter 0; signed out nothing |
| NotificationSettings.Toggled | src/components/NotificationSettings.tsx:60-63 | the chosen flag is negated and the other five are kept |
| NotificationSettings.ToggleTwice | src/components/NotificationSettings.tsx:60-63 | toggling the same flag twice restores the record |
| NotificationSettings.VisibleControls | src/components/NotificationSettings.tsx:155-251 | email sub-switches iff email is on; the push master switch is enabled iff permission is granted; push sub-switches iff push is on and granted |
| NotificationSettings.PushSubTogglesNeedMaster | src/components/NotificationSettings.tsx:234-251 | push sub-switches never show while the master switch is disabled |
| NotificationSettings.Settings.constructor | src/components/NotificationSettings.tsx:15-24 | before loading, all six flags are true, permission false, loading true |
| NotificationSettings.Settings.LoadPreferences | src/components/NotificationSettings.tsx:33-39 | signed in: the loaded preferences (all true on a missing row or error) and loading ends; signed out nothing |
| NotificationSettings.Settings.CheckPushPermission | src/components/NotificationSettings.tsx:41-45 | the flag is set to "permission is granted" only where the browser has notifications |
| NotificationSettings.Settings.RequestPushPermission | src/components/NotificationSettings.tsx:47-55 | the flag becomes the permission answer, with the toast that matches it |
| NotificationSettings.Settings.HandleToggle | src/components/NotificationSettings.tsx:57-67 | signed in: one flag flips and the whole new record is upserted; signed out nothing |
| GeminiApi.FirstUsableFrom | src/lib/classifier.ts:56-59 | finds the first catalog entry supporting generateContent whose name contains "gemini" |
| GeminiApi.ModelChoice | src/lib/classifier.ts:51-63 | the first usable entry's name without its first "models/"; the fallback when the catalog is not OK, lists no models or has no usable one; an error when the fetch or its parse throws |
| GeminiApi.ModelsPrefixRemoved | src/lib/classifier.ts:61 | "models/<id>" yields "<id>" |
| GeminiApi.FirstUsableWins | src/lib/classifier.ts:56-62 | the chosen model is the first usable entry, never a later one |
| GeminiApi.StripBase64 | src/lib/gemini.ts:70-72 | an input without "base64," is unchanged; otherwise the piece after its first occurrence, up to the next |
| GeminiApi.DataUrlPayload | src/lib/gemini.ts:152-154 | a data URL `<header>base64,<payload>` yields the payload |
| GeminiApi.Parts | src/lib/gemini.ts:68-94 | the request has the text part, plus an inline JPEG part of the stripped image exactly when an image is given |
| Classifier.DepartmentsFor | src/lib/classifier.ts:138-150 | each of the seven categories gets its four departments; anything else gets ["Public Works"]; never empty |
| Classifier.InfrastructureDepartments | src/lib/classifier.ts:140 | Infrastructure gets Public Works, Roads & Highways, Building Department, Engineering |
| Classifier.PublicWorksOnlyForInfrastructure | src/lib/classifier.ts:139-149 | "Public Works" is suggested iff the category is Infrastructure or unknown |
| Classifier.ExtractJson | src/lib/classifier.ts:111-114 | no match iff no "{" precedes a "}"; a match runs from the first "{" to the last "}" |
| Classifier.WithDefaults | src/lib/classifier.ts:119-125 | each falsy field takes its default (Infrastructure, Public Works, medium, 75, reasoning); truthy values pass through |
| Classifier.ZeroConfidenceBecomes75 | src/lib/classifier.ts:123 | a confidence of 0 comes back as 75 |
| Classifier.PriorityNotValidated | src/lib/classifier.ts:122 | any non-empty priority string, in or outside low/medium/high, passes through unchanged |
| Classifier.DefaultsAgreeWithTable | src/lib/classifier.ts:120-121 | the default department is the first suggestion for the default category |
| Classifier.PromptMentions | src/lib/classifier.ts:29-48 | the prompt quotes the description and says whether an image was provided |
| Classifier.ClassifyCall | src/lib/classifier.ts:65-93 | the generateContent request uses the chosen model, the prompt first and the image part only with an image |
| Classifier.Classify | src/lib/classifier.ts:20-133 | no key: an error and no request; a catalog failure ends after the catalog call with its error; otherwise the generate request goes to the chosen model and the result is the reply's interpretation |
| Classifier.NonOkFails | src/lib/classifier.ts:103-105 | a non-OK reply is an error carrying the status, never a default classification |
| Classifier.NoBracesFails | src/lib/classifier.ts:111-114 | a reply text without a brace pair is the format error |
| Classifier.SuccessNeedsFullPath | src/lib/classifier.ts:103-125 | a result needs a key, an OK reply, a brace pair that parses to an object, and is that object with defaults |
| Gemini.BlankKeyChecksDiffer | src/lib/gemini.ts:21 | a key of white space fails the chat check but passes the image check |
| Gemini.ChatErrorText | src/lib/gemini.ts:117-139 | key problems, then "429"/"quota", then "SAFETY", then the generic "AI Error" text; a non-Error gives the connection text |
| Gemini.LastFive | src/lib/gemini.ts:44 | the last min(5, n) messages, in order |
| Gemini.RenderAll | src/lib/gemini.ts:45 | one "User: …" or "Assistant: …" line per message |
| Gemini.ContextLines | src/lib/gemini.ts:43-46 | for messages whose text holds no newline, splitting the context at newlines gives back the rendered last min(5, n) messages |
| Gemini.ChatText | src/lib/gemini.ts:59-77 | the text part extends the full prompt, and is longer exactly when an image is sent |
| Gemini.ChatReplyText | src/lib/gemini.ts:104-115 | unreachable, unparsable and non-OK replies go through the error mapping; an OK reply gives its text or "No response generated" |
| Gemini.Status429IsRateLimit | src/lib/gemini.ts:107-129 | every 429 reply shows the rate-limit text, unless its body mentions "API_KEY_INVALID" or "API key", when the key text wins |
| Gemini.GenerateAIResponse | src/lib/gemini.ts:14-140 | an unconfigured key gives the warning and no request; otherwise the catalog call, then the request with the chat parts and the reply's text |
| Gemini.ChatUsesChosenModel | src/lib/gemini.ts:24-102 | with a key, a catalog failure ends the run after one call with that error's text; otherwise the request goes to the model the catalog chose and the reply's text is shown |
| Gemini.AnalyzeImage | src/lib/gemini.ts:146-199 | an unconfigured key gives its text and no request; otherwise one request to the fixed model; any failure gives one fixed text |
| ReportForm.AddedTags | src/components/ReportForm.tsx:41-46 | the trimmed input is appended iff it is non-blank and new; no duplicates are introduced |
| ReportForm.RemoveAll | src/components/ReportForm.tsx:48-50 | exactly the entries equal to the tag are removed |
| ReportForm.RemoveAllAppend | src/components/ReportForm.tsx:49 | removal works piecewise, so the remaining tags keep their order |
| ReportForm.RemoveAbsent | src/components/ReportForm.tsx:49 | removing a tag that is absent changes nothing |
| ReportForm.RemoveKeepsNoDup | src/components/ReportForm.tsx:48-50 | removal keeps the tags free of duplicates |
| ReportForm.RemoveUndoesAdd | src/components/ReportForm.tsx:41-50 | removing the tag just added restores the list |
| ReportForm.Payload | src/components/ReportForm.tsx:136-154 | the inserted row is always "open" and "medium", for the user, with the form's tags and image URL |
| ReportForm.UploadPath | src/components/ReportForm.tsx:118-119 | the path starts with "<user id>/" |
| ReportForm.UploadPathExtension | src/components/ReportForm.tsx:118-119 | the path keeps the chosen file's extension |
| ReportForm.UploadPathParts | src/components/ReportForm.tsx:119 | the path's first folder is the user id |
| ReportForm.ImageUrl | src/components/ReportForm.tsx:114-133 | an image URL iff a file was chosen and its upload succeeded |
| ReportForm.Sent | src/components/ReportForm.tsx:117-154 | the upload (when a file was chosen) and the insert are logged, and no form field changes |
| ReportForm.Reset | src/components/ReportForm.tsx:160-166 | after success every field returns to its initial value except the tag input |
| ReportForm.SubmitStepCases | src/components/ReportForm.tsx:99-178 | a blank title or description, or no user, is rejected with its toast; otherwise upload, insert, then reset on success or keep the form on failure |
| ReportForm.RejectedSubmitSendsNothing | src/components/ReportForm.tsx:101-109 | a rejected submission uploads and inserts nothing |
| ReportForm.SentRowShape | src/components/ReportForm.tsx:125-154 | the row sent is "open"/"medium" and a failed upload still sends it, without an image |
| ReportForm.AcceptedSubmitResets | src/components/ReportForm.tsx:156-166 | an accepted report resets the form and leaves no tags behind |
| ReportForm.Form.AddTag | src/components/ReportForm.tsx:41-46 | the tags become the added list; the input is cleared only when a tag was added |
| ReportForm.Form.RemoveTag | src/components/ReportForm.tsx:48-50 | the tags become the list without the tag; no duplicates |
| ReportForm.Form.SelectImage | src/components/ReportForm.tsx:52-57 | a chosen file replaces the selection; none keeps it |
| ReportForm.Form.SelectLocation | src/components/ReportForm.tsx:90-97 | a map pick moves the coordinates and keeps the address fields |
| ReportForm.Form.Submit | src/components/ReportForm.tsx:99-178 | the new form and the toast are the submit step's, and the submitting flag ends cleared |
| ReportForm.Form.Send | src/components/ReportForm.tsx:111-177 | after validation: upload, insert, then reset or keep |
| ReportForm.Form.Record | src/components/ReportForm.tsx:113-154 | the new state is the one with the upload and insert logged |
| ReportForm.Form.ResetFields | src/components/ReportForm.tsx:160-166 | the new state is the reset form |
| CommunityFeed.DisplayName | src/components/CommunityFeed.tsx:142 | full name, else display name, else the email's local part, else "User"; never empty |
| CommunityFeed.NameFromEmail | src/components/CommunityFeed.tsx:142 | with no profile, or one whose names are both empty, the name is the part of the email before "@", for every local part and domain |
| CommunityFeed.PostImagePath | src/components/CommunityFeed.tsx:119-120 | the path starts with "<user id>-" |
| CommunityFeed.PostImagePathExtension | src/components/CommunityFeed.tsx:119-120 | the path keeps the chosen file's extension |
| CommunityFeed.Toggle | src/components/CommunityFeed.tsx:211-228 | the post leaves the set if it was in it, else joins; no other post changes |
| CommunityFeed.UpvoteCalls | src/components/CommunityFeed.tsx:198-226 | two calls: delete and decrement for an upvoted post, insert and increment otherwise |
| CommunityFeed.Upvote | src/components/CommunityFeed.tsx:189-237 | no user: no call; the second call only after the first succeeds; the set toggles only after both succeed |
| CommunityFeed.UpvoteChangesSetOnlyOnSuccess | src/components/CommunityFeed.tsx:206-236 | the set changes iff a user is signed in and both calls succeed |
| CommunityFeed.UpvoteTwiceRestores | src/components/CommunityFeed.tsx:195-230 | two successful upvotes of the same post restore the set |
| CommunityFeed.RemovalDeletesBeforeDecrement | src/components/CommunityFeed.tsx:198-209 | removing an upvote deletes the row first, then decrements |
| CommunityFeed.CreatePostErrorText | src/components/CommunityFeed.tsx:166-172 | "storage" in the message, then "posts", decides the toast; otherwise the message or "Unknown error" |
| CommunityFeed.DeleteStep | src/components/CommunityFeed.tsx:276-297 | a delete call iff the user is the author; refused otherwise with its toast |
| CommunityFeed.UploadCalls | src/components/CommunityFeed.tsx:118-126 | one upload call, to the "<user id>-<time>.<extension>" path of the chosen file, exactly when a file was chosen |
| CommunityFeed.Inserted | src/components/CommunityFeed.tsx:144-161 | the insert is logged; success clears the form; failure keeps it with the error toast |
| CommunityFeed.Publish | src/components/CommunityFeed.tsx:114-173 | after the guards, the upload calls come first and the upvote set and comment stay |
| CommunityFeed.CreatePost | src/components/CommunityFeed.tsx:103-174 | no user, or a blank title or content, is refused with its toast and no call |
| CommunityFeed.FailedUploadInsertsNothing | src/components/CommunityFeed.tsx:122-126 | a failed upload stops the post: no insert, the form kept, the toast from the error |
| CommunityFeed.OnlyValidPostsWrite | src/components/CommunityFeed.tsx:104-112 | the store is written only for a signed-in user with a non-blank title and content |
| CommunityFeed.PublishedPost | src/components/CommunityFeed.tsx:114-160 | the inserted post carries the user id, `DisplayName` of the profile and email, the form text, and the upload's URL exactly when a file was chosen |
| CommunityFeed.CommentStep | src/components/CommunityFeed.tsx:239-274 | no user: refused; a blank comment: ignored silently; otherwise one insert, the text cleared on success |
| CommunityFeed.CommentSentUntrimmed | src/components/CommunityFeed.tsx:245-263 | every non-blank comment is sent as typed, and one that starts with white space differs from its trimmed form; only the blank test trims |
| CommunityFeed.Feed.FetchUserUpvotes | src/components/CommunityFeed.tsx:84-101 | a successful query replaces the set with the post ids; otherwise it is kept |
| CommunityFeed.Feed.SelectImage | src/components/CommunityFeed.tsx:176-187 | the chosen file, or none, becomes the selection |
| CommunityFeed.Feed.HandleUpvote | src/components/CommunityFeed.tsx:189-237 | the new set, the calls appended and the toast are the upvote step's |
| CommunityFeed.Feed.HandleCreatePost | src/components/CommunityFeed.tsx:103-174 | the new state and toast are the create-post step's |
| CommunityFeed.Feed.Share | src/components/CommunityFeed.tsx:114-173 | the new state and toast are the publish step's |
| CommunityFeed.Feed.Insert | src/components/CommunityFeed.tsx:144-161 | the new state and toast are the insert step's |
| CommunityFeed.Feed.HandleComment | src/components/CommunityFeed.tsx:239-274 | the new state and toast are the comment step's |
| CommunityFeed.Feed.HandleDeletePost | src/components/CommunityFeed.tsx:276-297 | the calls appended and the toast are the delete step's |
| BeforeAfter.Resolved | src/components/BeforeAfter.tsx:14-16 | exactly the resolved reports with both image URLs, in order |
| BeforeAfter.ResolvedIdempotent | src/components/BeforeAfter.tsx:14-16 | filtering twice equals filtering once |
| BeforeAfter.ResolvedAppend | src/components/BeforeAfter.tsx:14-16 | the filter works piecewise |
| BeforeAfter.NextIndex | src/components/BeforeAfter.tsx:29 | the next index stays in range and wraps from the last to 0 |
| BeforeAfter.PrevIndex | src/components/BeforeAfter.tsx:34 | the previous index stays in range and wraps from 0 to the last |
| BeforeAfter.PrevAfterNext | src/components/BeforeAfter.tsx:29-34 | previous undoes next |
| BeforeAfter.NextAfterPrev | src/components/BeforeAfter.tsx:29-34 | next undoes previous |
| BeforeAfter.NextTimes | src/components/BeforeAfter.tsx:28-31 | any number of next presses stays in range |
| BeforeAfter.NextTimesWithinRound | src/components/BeforeAfter.tsx:29 | k presses within one round add k, wrapping once |
| BeforeAfter.FullRoundReturns | src/components/BeforeAfter.tsx:29 | one press per report returns to the start |
| BeforeAfter.Clamp | src/components/BeforeAfter.tsx:91 | the slider stays in [0, 100] and keeps in-range positions |
| BeforeAfter.DisabledExactlyWhenStuck | src/components/BeforeAfter.tsx:141-152 | the buttons are disabled iff next and previous would both stay put |
| BeforeAfter.Carousel.ShowsEmptyState | src/components/BeforeAfter.tsx:18-24 | the empty panel shows iff no report qualifies |
| BeforeAfter.Carousel.Current | src/components/BeforeAfter.tsx:26 | the report on show is one of the reports and qualifies |
| BeforeAfter.Carousel.constructor | src/components/BeforeAfter.tsx:10-11 | the carousel starts at index 0 with the slider at 50 |
| BeforeAfter.Carousel.Next | src/components/BeforeAfter.tsx:28-31 | the index advances cyclically and the slider resets to 50 |
| BeforeAfter.Carousel.Prev | src/components/BeforeAfter.tsx:33-36 | the index goes back cyclically and the slider resets to 50 |
| BeforeAfter.Carousel.Drag | src/components/BeforeAfter.tsx:91 | the slider becomes the clamped position; the index is kept |
| InteractiveMap.MarkerColor | src/components/GoogleInteractiveMap.tsx:129-146 | resolved green, in progress amber, closed grey whatever the priority; open red for critical or high, else orange; any other status orange |
| InteractiveMap.RedMeansUrgentOpen | src/components/GoogleInteractiveMap.tsx:137-143 | red iff the report is open with critical or high priority |
| InteractiveMap.PriorityOnlyMattersWhenOpen | src/components/GoogleInteractiveMap.tsx:129-146 | for any status but open the priority does not change the colour |
| InteractiveMap.MarkerLabel | src/components/GoogleInteractiveMap.tsx:312 | descriptions up to 20 characters are shown whole; longer ones as 20 characters and "..."; at most 23 characters |
| InteractiveMap.LabelShortenedIffLong | src/components/GoogleInteractiveMap.tsx:312 | the label equals the description iff it has at most 20 characters or is a 23-character one already ending the same way; the label always starts with the first 20 characters |
| InteractiveMap.LabelColour | src/components/GoogleInteractiveMap.tsx:313 | white text on satellite, black on the road map |
| InteractiveMap.DetailId | src/components/GoogleInteractiveMap.tsx:347 | `_id` when non-empty, else `id`, else "" |
| InteractiveMap.MapClick | src/components/GoogleInteractiveMap.tsx:149-158 | a location is reported iff the picker is on, the click has a position and there is a callback |
| InteractiveMap.MapView.constructor | src/components/GoogleInteractiveMap.tsx:96-100 | road map, nothing selected, no user location, centred on (40.7128, -74.0060) |
| InteractiveMap.MapView.SetMapType | src/components/GoogleInteractiveMap.tsx:195-208 | the map type becomes the one chosen |
| InteractiveMap.MapView.SelectReport | src/components/GoogleInteractiveMap.tsx:302 | a marker click selects its report |
| InteractiveMap.MapView.CloseInfo | src/components/GoogleInteractiveMap.tsx:324 | closing the info window clears the selection |
| InteractiveMap.MapView.HandleMapClick | src/components/GoogleInteractiveMap.tsx:149-158 | the location, when reported, is appended to the callback log |
| InteractiveMap.MapView.ViewDetails | src/components/GoogleInteractiveMap.tsx:345-347 | the report's detail id goes to the report callback |
| InteractiveMap.MapView.StartLocating | src/components/GoogleInteractiveMap.tsx:160-162 | loading starts only where the browser has geolocation |
| InteractiveMap.MapView.LocationAnswer | src/components/GoogleInteractiveMap.tsx:163-176 | a fix moves the user marker and the centre; an error only ends loading |
| ReportStats.CountStatus | src/components/Dashboard.tsx:48-49 | at most all reports; 0 iff no report has the status; all iff every report has it |
| ReportStats.CountAppend | src/components/Dashboard.tsx:48-49 | counts add up over concatenation |
| ReportStats.TwoStatusesAtMostTotal | src/components/Dashboard.tsx:47-49 | counts of two different statuses add up to at most the total |
| ReportStats.RoundedPercent | src/components/Dashboard.tsx:50 | the whole percentage nearest to part/total with halves up, within [0, 100]; 0 for none, 100 for all |
| ReportStats.RoundedPercentFacts | src/components/Dashboard.tsx:50 | the integer formula lies in [0, 100] and brackets 100·part/total to within a half |
| ReportStats.ResolutionRate | src/components/Dashboard.tsx:50 | 0 when there are no reports, otherwise the rounded percentage; at most 100 |
| Dashboard.ComputeStats | src/components/Dashboard.tsx:47-50 | total, open and resolved counts with open + resolved ≤ total, and the resolution rate |
| Dashboard.EmptyStateIffNoReports | src/components/Dashboard.tsx:126 | the empty panel shows iff no report was fetched, and then every count is 0 |
| Dashboard.RateExtremes | src/components/Dashboard.tsx:50 | all resolved gives 100, none resolved gives 0 |
| Dashboard.DashboardView.FetchDashboardData | src/components/Dashboard.tsx:33-120 | data replaces the reports and stats; an error keeps them with a toast; null data keeps them; loading ends |
| AdminDashboard.NormalizeUser | src/components/AdminDashboard.tsx:49-55 | name "Unknown" and role "citizen" when missing, status always "active", id and email kept |
| AdminDashboard.NormalizeUsers | src/components/AdminDashboard.tsx:49-55 | one user per row, in order; no data gives an empty list |
| AdminDashboard.NormalizedUsersComplete | src/components/AdminDashboard.tsx:49-55 | every normalised user has a name, a role and status "active" |
| AdminDashboard.NormalizeReport | src/components/AdminDashboard.tsx:85-97 | priority "medium" when missing, author name "Unknown" and email "" when missing |
| AdminDashboard.NormalizeReports | src/components/AdminDashboard.tsx:77-99 | one report per row, in order; no data gives an empty list |
| AdminDashboard.NormalizedReportsComplete | src/components/AdminDashboard.tsx:91-94 | every normalised report has a priority and an author name |
| AdminDashboard.ActiveOfficials | src/components/AdminDashboard.tsx:112 | users whose role is official or admin; 0 iff there are none |
| AdminDashboard.ResolutionRateText | src/components/AdminDashboard.tsx:113 | "0%" without reports, otherwise the rounded percentage and "%" |
| AdminDashboard.RateTextMatchesRate | src/components/AdminDashboard.tsx:113 | the card reads back as the same rate the citizen dashboard computes |
| AdminDashboard.Search | src/components/AdminDashboard.tsx:258-261 | a user is shown iff the lowercased name or email contains the lowercased term |
| AdminDashboard.EmptyTermKeepsAll | src/components/AdminDashboard.tsx:258-261 | an empty term shows every user, in order |
| AdminDashboard.SearchIgnoresTermCase | src/components/AdminDashboard.tsx:258-261 | an upper-cased term shows the same users |
| AdminDashboard.SearchSameLowered | src/components/AdminDashboard.tsx:258-261 | terms with the same lower case show the same users |
| AdminDashboard.WithRole | src/components/AdminDashboard.tsx:124 | the matching users get the new role; others are kept |
| AdminDashboard.WithStatus | src/components/AdminDashboard.tsx:135 | the matching users get the new status; others are kept |
| AdminDashboard.RoleChangeIsLocal | src/components/AdminDashboard.tsx:124 | only roles change, and only for the matching id |
| AdminDashboard.RoleChangeIdempotent | src/components/AdminDashboard.tsx:124 | setting the same role twice equals setting it once |
| AdminDashboard.PromotionCountsOfficial | src/components/AdminDashboard.tsx:112-124 | promoting citizens adds one active official per matching user |
| AdminDashboard.Admin.FetchUsers | src/components/AdminDashboard.tsx:38-62 | success replaces the users; an error keeps them and shows "Failed to load users" |
| AdminDashboard.Admin.FetchReports | src/components/AdminDashboard.tsx:64-107 | success replaces the reports; an error keeps them and shows "Failed to load reports" |
| AdminDashboard.Admin.SetSearchTerm | src/components/AdminDashboard.tsx:30 | the search term becomes the text typed |
| AdminDashboard.Admin.HandleRoleChange | src/components/AdminDashboard.tsx:116-130 | the list changes, with the role step, only after the store accepts; the toast names the new role or the failure |
| AdminDashboard.Admin.HandleStatusChange | src/components/AdminDashboard.tsx:132-136 | the list becomes the status step, with no store call |
| AdminDashboard.Admin.Shown | src/components/AdminDashboard.tsx:258-261 | the table shows exactly the users matching the current term |
| OfficialDashboard.SpacesToDashes | src/components/OfficialDashboard.tsx:131 | every space becomes "-", every other character is kept |
| OfficialDashboard.DeptSlug | src/components/OfficialDashboard.tsx:131 | each character of the name lower-cased, with every space turned into "-"; so no space and no capital letter |
| OfficialDashboard.PublicWorksSlug | src/components/OfficialDashboard.tsx:131 | "Public Works" becomes "public-works" |
| OfficialDashboard.InitialFilterMatchesNoOption | src/components/OfficialDashboard.tsx:17-131 | the initial filter "all" is the value of no option |
| OfficialDashboard.SlugsOfDifferentLengthsDiffer | src/components/OfficialDashboard.tsx:131 | names of different lengths give different slugs |
| OfficialDashboard.SlugSeparatesLowercaseLetters | src/components/OfficialDashboard.tsx:131 | names differing at a lower-case letter give different slugs |
| OfficialDashboard.AssignmentChoices | src/components/OfficialDashboard.tsx:203 | the choices are the departments without "All Departments" |
| OfficialDashboard.Assign | src/components/OfficialDashboard.tsx:67-75 | an empty department or timeline is rejected with nothing changed; otherwise the editor closes and all three fields reset |
| OfficialDashboard.BlankTimelineAccepted | src/components/OfficialDashboard.tsx:68 | any non-empty timeline is accepted, white space only included, while the same white space as a comment is refused |
| OfficialDashboard.AddComment | src/components/OfficialDashboard.tsx:77-84 | a blank comment is rejected; success clears only the comment |
| OfficialDashboard.CommentKeepsAssignmentFields | src/components/OfficialDashboard.tsx:83 | a comment never touches the department or the timeline |
| OfficialDashboard.SecondCommentRejected | src/components/OfficialDashboard.tsx:77-83 | a second comment right after a successful one is rejected |
| OfficialDashboard.OfficialView.constructor | src/components/OfficialDashboard.tsx:17-23 | the filter starts at "all", no editor is open, the fields are empty |
| OfficialDashboard.OfficialView.SelectDepartment | src/components/OfficialDashboard.tsx:127 | the filter becomes the option chosen |
| OfficialDashboard.OfficialView.OpenEditor | src/components/OfficialDashboard.tsx:270-278 | the editor opens for the report, or closes |
| OfficialDashboard.OfficialView.EditField | src/components/OfficialDashboard.tsx:197-234 | the edited field changes, the others are kept |
| OfficialDashboard.OfficialView.HandleAssignReport | src/components/OfficialDashboard.tsx:67-75 | the new editor, fields and toast are the assign step's |
| OfficialDashboard.OfficialView.HandleAddComment | src/components/OfficialDashboard.tsx:77-84 | the new fields and toast are the comment step's |
| UserProfile.InitialProfile | src/components/UserProfile.tsx:17-26 | every field "" except the account's email |
| UserProfile.LoadProfile | src/components/UserProfile.tsx:35-65 | a row's fields with "" for missing ones and the account email when the row has none; no row sets only the email; another error keeps the form |
| UserProfile.LoadedEmail | src/components/UserProfile.tsx:49-58 | the loaded email is empty iff neither the row nor the account has one |
| UserProfile.UpvoteSum | src/components/UserProfile.tsx:88 | missing counts add 0; non-negative counts give a non-negative sum |
| UserProfile.UpvoteSumAppend | src/components/UserProfile.tsx:88 | the sum splits over the rows |
| UserProfile.MissingCountsAddNothing | src/components/UserProfile.tsx:88 | rows without a count sum to 0 |
| UserProfile.ComputeStats | src/components/UserProfile.tsx:67-98 | either query failing keeps the stats; otherwise total, resolved ≤ total and the upvote sum, with missing data as none |
| UserProfile.AvatarLetter | src/components/UserProfile.tsx:163 | the full name's first character upper-cased, else the email's, else "U"; never a lower-case letter |
| UserProfile.Heading | src/components/UserProfile.tsx:178 | full name, else email, else "User"; never empty |
| UserProfile.AvatarMatchesHeading | src/components/UserProfile.tsx:163-178 | the avatar is the heading's first character upper-cased when there is a name or email |
| UserProfile.Subtitle | src/components/UserProfile.tsx:181 | "@" and the display name, or the email when there is none |
| UserProfile.SaveRow | src/components/UserProfile.tsx:104-117 | the upsert carries the account id and email and every other form field |
| UserProfile.SaveThenLoad | src/components/UserProfile.tsx:104-117 | loading the saved row back gives the saved form with the account email |
| UserProfile.ProfilePage.constructor | src/components/UserProfile.tsx:10-26 | not editing, loading, zero stats, the initial form |
| UserProfile.ProfilePage.FetchProfile | src/components/UserProfile.tsx:35-65 | the form becomes the loaded profile and loading ends |
| UserProfile.ProfilePage.FetchUserStats | src/components/UserProfile.tsx:67-98 | the stats become the computed stats, the reduce as a loop |
| UserProfile.ProfilePage.StartEditing | src/components/UserProfile.tsx:151 | "Edit Profile" opens the editor |
| UserProfile.ProfilePage.HandleSave | src/components/UserProfile.tsx:100-128 | no account: nothing; otherwise one upsert; the editor closes and the success toast shows only when it succeeds |
| Theme.InitialTheme | src/hooks/useTheme.ts:7-14 | the stored value, or "system" when nothing (or "") is stored or storage throws |
| Theme.Toggled | src/hooks/useTheme.ts:44 | dark goes to light, anything else to dark |
| Theme.ToggleTwiceRestores | src/hooks/useTheme.ts:44 | two toggles from dark or light return to it |
| Theme.ToggleLeavesSystem | src/hooks/useTheme.ts:44 | toggling never yields "system"; from system it goes dark, then light |
| Theme.DarkClass | src/hooks/useTheme.ts:16-24 | the "dark" class for dark, not for light, the OS preference for system |
| Theme.ClassAgreesWithIsDark | src/hooks/useTheme.ts:16-46 | the class is set exactly when `isDark` holds |
| Theme.ToggleFromDarkSystemLooksUnchanged | src/hooks/useTheme.ts:44-46 | toggling "system" while the OS prefers dark keeps the page dark |
| Theme.ToggledIgnoresPreference | src/hooks/useTheme.ts:44-46 | after a toggle, darkness no longer depends on the OS |
| Theme.SavedThemeReloads | src/hooks/useTheme.ts:7-29 | a saved theme is read back as itself on the next load |
| Theme.ThemeState.constructor | src/hooks/useTheme.ts:7-31 | the initial theme, written back to storage when it works, and applied |
| Theme.ThemeState.Changed | src/hooks/useTheme.ts:26-31 | the theme is written under "civiclens_theme" when storage works, then applied |
| Theme.ThemeState.SetTheme | src/hooks/useTheme.ts:43 | the theme becomes the one chosen, is persisted and applied |
| Theme.ThemeState.Toggle | src/hooks/useTheme.ts:44 | the theme becomes the toggled one, is persisted and applied |
| Theme.ThemeState.PreferenceChanged | src/hooks/useTheme.ts:33-41 | an OS change is applied only while the theme is "system" |
| Theme.ThemeState.IsDarkNow | src/hooks/useTheme.ts:46 | dark, or system while the OS prefers dark |

## Left out

- Supabase queries, inserts, upserts, RPCs, storage uploads, auth and the realtime channels are not called. Each is a parameter giving its outcome, and the writes go to a log. Channel setup and teardown, and races between tabs or concurrent handlers, are not modelled.
- The `fetch` calls to the Gemini catalog and generateContent endpoints, `response.json()` and `JSON.parse` are parameters that give their result. The API key is a parameter.
- Browser APIs are parameters: the `Notification` constructor and its permission, `matchMedia`, `localStorage` and geolocation. The following are left out entirely: toasts other than their text, the 5-second auto-close, `FileReader` previews, DOM class toggling beyond the "dark" flag, and console logging.
- `Date.now()` is a parameter; `toISOString`, the Dashboard's day-by-day trend series and locale date formatting are not modelled.
- Floating point: coordinates and the slider position are `real`, and `Math.round(resolved / total * 100)` is computed exactly on integers, with halves rounded up. Where the floating-point product falls just below a half, the model's percentage is one point higher than the app's: 23 of 40 gives 57.49999999999999 in floating point, so the app shows 57 and the model 58; 57 of 200 gives 28.499999999999996, so the app shows 28 and the model 29. NaN and infinities are not modelled. JSON numbers are `real`.
- ReportStats.RoundedPercent: computes the exact rational percentage rounded half up, so it can be one point above the app's floating-point result (23 of 40: app 57, model 58; 57 of 200: app 28, model 29).
- Strings are sequences of characters. Case mapping covers ASCII letters only. Trimming (`Text.IsSpace`) removes space, tab, line feed, carriage return, vertical tab, form feed, U+00A0, U+FEFF, U+2028 and U+2029; the other Unicode spaces that JavaScript's `trim` also removes, such as U+1680, U+2000 to U+200A, U+202F, U+205F and U+3000, are kept. `substring` counts characters, not UTF-16 code units.
- The query limits (50 notifications in the hook, 20 in the bell) and the store's ordering belong to the store: the rows handed in are the rows returned.
- `departmentMap[category]` is modelled for plain string keys. Keys found on the prototype chain, such as "toString", are not modelled.
- `generateEmailTemplate` is an unused HTML string and is not modelled; the simulated email is modelled as one effect.
- Notifications.LoadedPreferences: the partial default object inside the two notify functions is modelled as all flags true, which agrees on every flag those functions read.
- A catalog entry without a `name` would throw a TypeError inside `find`; entries here always have a name.
- Classifier.Classify: a candidate text that is not a string (a number, say) is not modelled; the text is a string or absent.
- NotificationSettings.Settings.HandleToggle: the "preferences updated" and "failed to update" toasts of the upsert are not modelled, only the upsert itself.
- BeforeAfter.Carousel: the index is not re-clamped when the `reports` prop changes; the reports are fixed for the carousel's lifetime. The mouse-to-percent computation is left to the caller of `Drag`.
- ReportForm: `handleGetLocation` is not modelled, because it depends on geolocation and `toFixed(6)` formatting; `onBack` navigation is not modelled.
- CommunityFeed: `fetchPosts` (the post and comment reload after each change) is not modelled, and neither is the image preview.
- AdminDashboard.Search: a user whose email is null would make the page throw; emails are strings here. At run time ids are strings, while `handleStatusChange` declares a number. The model uses strings, which matches what the list holds.
- UserProfile.ProfilePage.HandleSave: the profile refresh after a successful save is a separate `FetchProfile` call. `handleAvatarUpload` only shows a toast and is not modelled.
- OfficialDashboard: the stats and report list are fixed placeholder data and are not modelled. The department filter is stored but never applied.
