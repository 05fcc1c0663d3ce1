# AyurHealth wellness app — verified model of its stateful core

This project models the parts of the AyurHealth web application that carry state or a precise accept/reject
rule, and proves what each of them promises.

- **Client caches** (`lib/store.ts`). The check-in list, the chat list and the id of the open chat are
  fields of the classes `ClientStore.WellnessStore` and `ClientStore.ChatStore`. Each action takes the
  outcome of its one `fetch` as an input (`Ok(body)`, `NotOk`, or `Failed(error)`). It then updates the
  fields the way zustand's `set` does: prepend, map-replace or overwrite.
- **Server document store** (`app/api/*/route.ts` over `models/*.ts`). `Store.Database` holds one
  sequence per collection, in insertion order, plus a counter that stands for fresh document ids. Each
  route handler is a method over that store.
  - The caller is an `Option<string>` (Clerk's `auth()`), and the session id is a separate
    `Option<string>`.
  - `connectDB` success is a boolean.
  - The generative model's replies are inputs (`None` where the call throws).
- **Database queries.** `find` with an owner filter, `sort({ key: -1 })` and `findOne` are the generic
  functions `Query.Filter`, `Query.SortDesc`, `Query.FindSorted` and `Query.FindOneSorted`. Their lemmas
  state, for every owned collection at once, which documents a query returns and in what order.
- **Schemas** (`models/*.ts`).
  - Enums and their defaults.
  - Required paths.
  - The unique `userId` and the unique `(userId, date)` index, as invariants of `Store.Database`.
  - The encrypt-on-set / decrypt-or-keep-on-get rule of chat titles and message contents, over an
    uninterpreted cipher (`Encryption.Cipher`) behind a guard that refuses a missing or empty session id.
- **Diet-plan post-processing** (`lib/gemini.ts`). It trims the reply, then strips fences with the exact
  regular-expression semantics. It then parses the reply (the parser is an input) and checks the shape
  and length, and every failure comes out as one error message.
- **Dashboard helpers.**
  - The BMI formula, its categories, their colours and the meter position, over exact reals.
  - The sidebar's highlight rule.
  - The case-insensitive weekday lookup and the generate action of the diet-plan card.
  - The constitution table of the body-nature card, which face that card shows, and its analyse action.
  - The chat composer's submit guard, its send-then-clear order, the Enter key and the send button.

Days are whole numbers of days since 1970-01-01, counted in UTC. `Calendar.Weekday` numbers them from
Sunday = 0, as `Date.prototype.getDay` does.

A few behaviours of the code shape the contracts throughout:
- The user `profile` declares no `bmi` path (models/User.ts:18-30), so the `profile.bmi` update the user
  `PUT` builds is dropped rather than stored.
- The unique check-in index is on the stored instant, not the calendar day (models/WellnessCheckIn.ts:9-21).
- The diet-plan week start is "Sunday-based weekday + 1". That is the Monday of the current week, except
  on a Sunday, when it is the next day (app/api/diet-plan/route.ts:61-63). It is not an ISO week start.
- Every diet-plan failure surfaces as the single message "Failed to generate diet plan" (lib/gemini.ts:95-98).
- Acceptance checks only that `dailyPlans` is an array of seven elements, not that the days run Monday to
  Sunday (lib/gemini.ts:81-90).

## Model

| member | source | states |
|---|---|---|
| Text.Trim | lib/gemini.ts:72 | `trim` removes exactly the maximal whitespace prefix and suffix (the cut point is unique); the result is empty iff the text is all whitespace |
| Text.TrimmedAtUnique | lib/gemini.ts:72 | the trimmed text and where it starts are determined by the input |
| Text.TrimPadded | lib/gemini.ts:72 | whitespace around a text that neither starts nor ends with whitespace is exactly what `trim` removes |
| Text.ToLower | components/dashboard/diet-plan.tsx:116-117 | `toLowerCase` on ASCII: same length, no upper-case letter left, each character kept or shifted down by 32 exactly when it is upper-case |
| Text.ToLowerIdempotent | components/dashboard/diet-plan.tsx:117 | lower-casing twice is lower-casing once |
| Query.Filter | app/api/chats/route.ts:14 | `find({ userId })` keeps exactly the matching documents, each as often as it is stored |
| Query.FilterAppend | app/api/wellness-recommendations/route.ts:46-49 | filtering a collection grown by an insert is filtering the old collection plus filtering the new document |
| Query.FilterTwice | app/api/diet-plan/route.ts:50 | filtering by a stronger filter after a weaker one is filtering by the stronger one |
| Query.FilterNone | app/api/diet-plan/route.ts:50 | a filter that no document passes returns nothing |
| Query.Insert | app/api/chats/route.ts:14 | inserting into a key-descending list keeps it key-descending and a permutation of its elements |
| Query.SortDesc | app/api/chats/route.ts:14 | `sort({ key: -1 })` returns a permutation of its input in key-descending order |
| Query.FindSortedSpec | app/api/wellness/route.ts:14 | `find(filter).sort({ key: -1 })` holds exactly the stored documents that pass the filter, with their multiplicities, key-descending |
| Query.FindOneSortedSpec | app/api/diet-plan/route.ts:20-25 | `findOne(filter).sort({ key: -1 })` is `null` iff no document passes; otherwise it is a stored, passing document with the greatest key |
| Query.FindIndex | lib/store.ts:113 | `Array.prototype.find`: absent iff no element matches, otherwise the first matching position |
| Query.Find | app/api/user/route.ts:14 | `findOne({ userId })` and `Array.prototype.find`: nothing iff no element matches, otherwise a stored, matching element |
| Calendar.DayOf | app/api/diet-plan/route.ts:16-17 | `setHours(0, 0, 0, 0)`: the day whose midnight-to-midnight span contains the instant |
| Calendar.Weekday | app/api/diet-plan/route.ts:18 | `getDay` lies in 0..6 and is 0 (Sunday) exactly on the days 3 modulo 7, the first being 1970-01-04; with `WeekdayNext` this fixes every weekday to the real calendar |
| Calendar.WeekdayNext | app/api/diet-plan/route.ts:18 | the next day is the next weekday, wrapping after Saturday |
| Calendar.CurrentWeekStart | app/api/diet-plan/route.ts:16-18 | the lookup window opens on the most recent Sunday, today included, at most six days back |
| Calendar.PlanWeekStart | app/api/diet-plan/route.ts:61-63 | a new plan's week start is a Monday, one day after the lookup window's start, and it is tomorrow exactly when today is Sunday |
| Calendar.WeekStartsWeeksApart | app/api/diet-plan/route.ts:16-18 | lookup window starts never move backwards and differ by whole weeks |
| Calendar.PlanVisibleDuringItsWeek | app/api/diet-plan/route.ts:61-63 | a plan stored on one day is inside the lookup window on a later day exactly when both days are in the same Sunday-to-Saturday week |
| Encryption.EncryptField | lib/encryption.ts:5-29 | encryption fails with "No session found" exactly when the session id is missing or empty; under a round-tripping cipher, decryption with the session key gives the plaintext back |
| Encryption.DecryptField | lib/encryption.ts:5-35 | decryption fails with "No session found" when the session id is missing or empty; with a usable one, it succeeds exactly when the cipher decrypts, and gives the cipher's plaintext |
| Encryption.ReadField | models/Chat.ts:9-15 | the getter returns the decryption, or the stored value unchanged when decryption throws |
| Encryption.WriteThenRead | models/Chat.ts:8-14 | a value written under a non-empty session id reads back as itself under that session |
| Encryption.ReadWithoutSession | models/Chat.ts:9-15 | without a session, or with an empty session id, every stored value reads back as raw ciphertext |
| Store.SignedIn | app/api/user/route.ts:9 | `if (!userId)`: a missing or empty id is refused, and every non-empty id is let through |
| Store.Database.constructor | models/User.ts:5-8 | an empty store holds both unique indexes (`userId` of users, and `(userId, date)` of check-ins, models/WellnessCheckIn.ts:21) and has issued no id; every route handler keeps these, together with "every stored id was issued before the counter", as `Valid()` |
| Store.Database.NewId | app/api/chats/route.ts:33 | each `create` gets an id that no stored document of any collection carries, and the store stays valid; the counter moves on by one |
| UserModel.ParseSubscriptionStatus | models/User.ts:9-13 | accepts exactly "unpaid" and "paid", and the accepted value's name is the input |
| UserModel.ParseBodyNature | models/User.ts:14-17 | accepts exactly the six lower-case constitution names |
| UserModel.ParseGender | models/User.ts:22-25 | accepts exactly "male", "female" and "other" |
| UserModel.ParseFoodPreference | models/User.ts:26-29 | accepts exactly "vegan", "vegetarian" and "non-vegetarian" |
| UserModel.NamesParse | models/User.ts:9-29 | every enum value's stored name parses back to that value |
| UserModel.NewUser | models/User.ts:3-35 | `User.create({ userId })` gives `unpaid`, no body nature, no profile, and creation time now |
| ChatModel.ParseRole | models/Chat.ts:17-21 | a role is valid exactly when it is "user", "system" or "assistant" |
| ChatModel.RoleNameParses | models/Chat.ts:17-21 | every role's stored name parses back to that role |
| ChatModel.SetEncryptedRequired | models/Chat.ts:5-8 | a required encrypted path is accepted exactly when a value and a non-empty session id are present and the ciphertext is not empty; what is stored is the ciphertext; a value without a usable session fails with "No session found" |
| ChatModel.NewMessage | models/Chat.ts:4-26 | a message is created exactly when its content passes the encrypted-required rule and its role is in the enum; it stores the ciphertext, the role and the creation time |
| ChatModel.NewChat | models/Chat.ts:28-51 | a chat is created exactly when `userId` is present and the title passes the encrypted-required rule; it stores the owner, the ciphertext title, the given messages and the creation time |
| ChatModel.ReadMessage | models/Chat.ts:9-21 | a message reads back with its content decrypted, or as stored when decryption throws, and with its role and time unchanged |
| ChatModel.ReadChat | models/Chat.ts:53-57 | `toJSON` with getters keeps the id, owner and time, reads the title through its getter, and reads every message through its getter at its own position |
| ChatModel.StoredChatReadsBack | models/Chat.ts:5-57 | a chat whose title and messages were all written under one session reads back under that session with the plaintext title and, at every position, the plaintext content, role and time |
| ChatModel.NewChatReadsBack | models/Chat.ts:34-45 | a chat created under a session reads back with its original title, owner, no messages and its creation time |
| ChatModel.NewMessageReadsBack | models/Chat.ts:5-21 | a message created under a session reads back with its original content and role |
| ChatModel.EmptyTitleAccepted | models/Chat.ts:34-37 | under a non-empty session id, an empty title passes `required` whenever its ciphertext is not empty, because the setter runs before the validator |
| WellnessCheckInModel.NewCheckIn | models/WellnessCheckIn.ts:3-18 | a check-in is valid exactly when `userId`, `date` and `responses` are all present |
| WellnessCheckInModel.Insert | models/WellnessCheckIn.ts:21 | an insert is rejected with a duplicate-key error exactly when the `(userId, date)` pair is stored; otherwise it appends, and the index stays unique |
| WellnessCheckInModel.SameDayDifferentInstantsAccepted | models/WellnessCheckIn.ts:20-21 | two check-ins differing in user or stored instant are both accepted |
| WellnessCheckInModel.SameDayTwiceExample | models/WellnessCheckIn.ts:9-21 | one user's two check-ins on the same calendar day, a second apart, are both accepted |
| WellnessCheckInModel.SecondInsertRejected | models/WellnessCheckIn.ts:21 | inserting an already stored pair a second time is rejected |
| Gemini.GetAdvice | lib/gemini.ts:23-29 | the advice is the model's text unchanged, and any failure becomes "Failed to get AI response" |
| Gemini.StripFences | lib/gemini.ts:75 | the regular-expression replace never lengthens the text (what it removes is stated by the three lemmas below) |
| Gemini.StripFencesUnfenced | lib/gemini.ts:75 | text with no three backticks in a row is left unchanged, single backticks included |
| Gemini.StripClosingFence | lib/gemini.ts:75 | after a body with no three backticks in a row, a closing fence is removed together with the newline before it |
| Gemini.StripFencedBody | lib/gemini.ts:72-75 | "```json\n" + body + "\n```" is reduced to exactly the body, whenever the body holds no three backticks in a row |
| Gemini.InlineBackticksKept | lib/gemini.ts:75 | a fenced reply whose body has an inline code span keeps that span |
| Gemini.CleanReply | lib/gemini.ts:72-75 | the text handed to `JSON.parse` is never longer than the reply, and a reply without three backticks in a row is only trimmed |
| Gemini.CleanFencedReply | lib/gemini.ts:72-75 | a fenced reply with any whitespace around the fences is cleaned to exactly its body, whenever the body holds no three backticks in a row |
| Gemini.DailyPlansOf | lib/gemini.ts:81-90 | a parsed plan passes exactly when `dailyPlans` exists, is an array and has seven elements; the array is returned unchanged; a wrong length is reported as such |
| Gemini.ParseDietPlan | lib/gemini.ts:77-94 | a parse or shape failure is rethrown as "Failed to generate valid diet plan"; success means the parsed value passed the shape check and gives its seven days |
| Gemini.GetDietPlan | lib/gemini.ts:72-98 | every failure surfaces as "Failed to generate diet plan", and a result always has seven days |
| Gemini.GetDietPlanSpec | lib/gemini.ts:72-90 | a plan comes out exactly when the model answers and the trimmed, de-fenced reply parses to an object with a seven-element `dailyPlans` array, which is returned as parsed |
| Gemini.AcceptsAnySevenValues | lib/gemini.ts:81-90 | any seven values are accepted, even without day names or meals |
| Gemini.RejectsOtherLengths | lib/gemini.ts:86-88 | any other length is rejected |
| UserRoute.BuildUpdate | app/api/user/route.ts:37-53 | the profile is replaced, with all five fields and absent ones undefined, exactly when one of the five is truthy; `profile.bmi` is set exactly when `bmi` is given |
| UserRoute.ZeroWeightOnly | app/api/user/route.ts:40 | a body whose only field is `weight: 0` yields no profile update |
| UserRoute.Get | app/api/user/route.ts:6-25 | 401 without a caller. Otherwise it returns the caller's existing user with nothing created, or creates exactly one default user under an id no stored document carried; the unique `userId` invariant is kept |
| UserRoute.Put | app/api/user/route.ts:27-66 | 401 without a caller. It never creates a user and returns `null` when the caller has none. Otherwise only that user's profile changes, and only when a profile field is truthy |
| ChatsRoute.Get | app/api/chats/route.ts:6-21 | 401 without a caller, 500 on a store failure; otherwise exactly the caller's chats, newest first, each read through the getters |
| ChatsRoute.Post | app/api/chats/route.ts:23-44 | 401 without a caller. Otherwise it appends one chat owned by the caller, with the given title and no messages, under an id no stored document carried, or stores nothing and returns 500 |
| WellnessRoute.Get | app/api/wellness/route.ts:6-21 | 401 without a caller; otherwise exactly the caller's check-ins, with their multiplicities, latest date first |
| WellnessRoute.Post | app/api/wellness/route.ts:23-44 | 401 without a caller. It inserts and returns the caller's check-in with the given date and responses, under an id no stored document carried. A missing field or an already stored `(caller, date)` pair gives 500 and leaves the collection unchanged |
| DietPlanRoute.CurrentPlan | app/api/diet-plan/route.ts:15-24 | the week query finds nothing iff the user has no plan starting on or after this week's Sunday; otherwise it finds a stored plan of the user starting then or later, with the greatest week start among them |
| DietPlanRoute.Get | app/api/diet-plan/route.ts:8-32 | 401 without a caller. It returns `null` iff the caller has no plan starting on or after this week's Sunday; otherwise such a plan with the greatest week start |
| DietPlanRoute.Post | app/api/diet-plan/route.ts:34-78 | 401 without a caller, and 404 without a user profile before anything is deleted. Otherwise the caller's plans are deleted and other users' plans are untouched. A failed generation, or a generated day the subdocument schema cannot cast, returns 500 and leaves the caller with no plan. Otherwise exactly one plan is left for the caller, with a Monday week start and the seven cast days in order |
| DietPlanRoute.StoreGenerated | app/api/diet-plan/route.ts:61-72 | once the caller has no plan, `DietPlan.create` makes the new plan the caller's only one, with a Monday week start, the given days and an id no stored document carried; other users' plans are unchanged and the store invariants hold |
| DietPlanRoute.UncastableWeekPassesLengthCheck | app/api/diet-plan/route.ts:50-71 | seven values pass the length check even when one of them cannot be cast, so `create` throws after the delete |
| DietPlanRoute.DeleteCallerPlans | app/api/diet-plan/route.ts:50 | the delete leaves exactly the plans not owned by the caller, in order, and keeps the store valid |
| DietPlanRoute.DeleteOwned | app/api/diet-plan/route.ts:50 | `deleteMany({ userId })` leaves none of the caller's plans and all of the others |
| DietPlanRoute.AppendOwned | app/api/diet-plan/route.ts:67-71 | after the delete, the created plan is the caller's only plan and the other users' plans are unchanged |
| DietPlanRoute.PostThenGetSameDay | app/api/diet-plan/route.ts:16-25 | a plan a `POST` leaves behind is what a `GET` on the same day returns |
| WellnessRecommendationsRoute.Get | app/api/wellness-recommendations/route.ts:8-25 | 401 without a caller; otherwise `null` iff the caller has no record, else a record of the caller with the latest creation time |
| WellnessRecommendationsRoute.Post | app/api/wellness-recommendations/route.ts:27-56 | 401 without a caller, 404 without a profile, and 500 with the store unchanged when generation fails. Otherwise it appends exactly one record owned by the caller, under an id no stored document carried, with both timestamps now |
| WellnessRecommendationsRoute.HistoryGrowsByOne | app/api/wellness-recommendations/route.ts:46-49 | the caller's history grows by exactly the new record, and other users' histories are unchanged |
| ClientStore.Thrown | lib/store.ts:27 | a non-ok status rethrows the action's own message; a thrown error is rethrown as it is |
| ClientStore.PromptNeeded | lib/store.ts:49-57 | the prompt is hidden exactly when a check-in is cached and the first one falls within today's UTC day, from midnight to the next midnight |
| ClientStore.PromptReadsOnlyHead | lib/store.ts:49-57 | the check-in prompt depends on the first cached check-in only, and is due exactly when that check-in is from another day |
| ClientStore.NoPromptAfterTodaysCheckIn | lib/store.ts:53-56 | after a check-in dated today is put in front, no prompt is due for the rest of the day |
| ClientStore.WellnessStore.AddCheckIn | lib/store.ts:19-37 | on success the saved check-in is at index 0 and the earlier ones follow in their order; on any failure the list is unchanged and the error is rethrown |
| ClientStore.WellnessStore.FetchCheckIns | lib/store.ts:38-48 | on success the list is replaced; on failure it is unchanged and nothing is thrown |
| ClientStore.WellnessStore.ShouldPromptNewCheckIn | lib/store.ts:49-57 | true on an empty list, otherwise true iff the first check-in's UTC date differs from today's |
| ClientStore.ReplaceMatching | lib/store.ts:128-132 | same length; every chat matching by `_id` or `id` becomes the returned chat and every other chat stays at its position |
| ClientStore.ReplaceMatchingIdempotent | lib/store.ts:128-132 | applying the same `addMessage` update twice equals applying it once |
| ClientStore.ReplaceWithoutMatch | lib/store.ts:128-132 | with no chat under the key, the list is unchanged |
| ClientStore.FindAfterReplace | lib/store.ts:113 | after `addMessage`, `getChat` with the same key returns the returned chat iff some chat matched, provided the returned chat carries the key |
| ClientStore.ChatStore.CreateChat | lib/store.ts:89-111 | on success the new chat is first, it is the active chat, and its `_id` is returned; on failure neither field changes and the error is rethrown |
| ClientStore.ChatStore.GetChat | lib/store.ts:112-114 | the first chat whose `_id` or `id` equals the key, or nothing exactly when no chat carries the key |
| ClientStore.ChatStore.AddMessage | lib/store.ts:115-138 | on success the list is the map-replace of the old list (the active chat is untouched); on failure it is unchanged and the error is rethrown |
| ClientStore.ChatStore.SetActiveChat | lib/store.ts:139-141 | the active chat becomes the given id and nothing else changes |
| ClientStore.ChatStore.FetchChats | lib/store.ts:142-152 | on success the chat list is replaced; on failure it is unchanged and nothing is thrown |
| BmiMeter.ComputeBmi | components/dashboard/bmi-meter.tsx:28-35 | no BMI when weight or height is missing or zero; otherwise BMI × (height/100)² equals the weight |
| BmiMeter.Category | components/dashboard/bmi-meter.tsx:60-65 | exactly one of the four categories applies, at the 18.5 / 25 / 30 boundaries |
| BmiMeter.CategoryMonotone | components/dashboard/bmi-meter.tsx:60-65 | a larger BMI never yields an earlier category |
| BmiMeter.Color | components/dashboard/bmi-meter.tsx:67-75 | each known category gets its gradient, and gray is returned exactly for any other string |
| BmiMeter.ColorsDistinct | components/dashboard/bmi-meter.tsx:67-75 | distinct categories get distinct colours, and a computed category is never gray |
| BmiMeter.MeterPosition | components/dashboard/bmi-meter.tsx:77-80 | the position lies in [0, 100]; it is BMI × 2.5 on [0, 40], 0 below and 100 above |
| BmiMeter.MeterMonotone | components/dashboard/bmi-meter.tsx:77-80 | the marker never moves left as the BMI grows |
| Sidebar.IsActive | components/dashboard/sidebar.tsx:56-59 | an item is active on its own path; a path strictly below it activates it only for "/chat" and "/tracker", and only below "/chat/" and "/tracker/" |
| Sidebar.ActiveItems | components/dashboard/sidebar.tsx:55-59 | Dashboard and Settings are active only on their exact path; Chat and Tracker also below "/chat/" and "/tracker/" |
| Sidebar.AtMostOneActive | components/dashboard/sidebar.tsx:17-59 | no path makes two of the four items active |
| Sidebar.NothingActive | components/dashboard/sidebar.tsx:56-59 | "/dashboard/x" and "/chatroom" activate no item |
| DietPlanPanel.SameDay | components/dashboard/diet-plan.tsx:116-117 | an entry named exactly as today always matches, and a matching entry's day name has today's length |
| DietPlanPanel.GetTodaysPlan | components/dashboard/diet-plan.tsx:114-118 | `null` iff no plan is loaded; `undefined` iff no day name matches today's ignoring case; otherwise the first matching entry |
| DietPlanPanel.CaseInsensitive | components/dashboard/diet-plan.tsx:117 | plans whose day names agree once lower-cased, looked up with today's name in any case, select the same position |
| DietPlanPanel.CapitalDayFound | components/dashboard/diet-plan.tsx:117 | a day written "MONDAY" is found on "Monday" |
| DietPlanPanel.DietPlanCard.GenerateDietPlan | components/dashboard/diet-plan.tsx:86-112 | without a profile, only a redirect to /settings. Otherwise the busy flag is raised, then the request is sent, then the flag is lowered; the shown plan is replaced only by an ok response |
| BodyNaturePanel.TableKeys | components/dashboard/body-nature.tsx:13-50 | the table has exactly the six capitalised keys |
| BodyNaturePanel.FourTraits | components/dashboard/body-nature.tsx:13-50 | every entry lists four characteristics |
| BodyNaturePanel.LookupAsWritten | components/dashboard/body-nature.tsx:185 | the index expression finds an own entry exactly for the six keys, and an inherited member exactly for the `Object.prototype` names |
| BodyNaturePanel.DisplayAsWritten | components/dashboard/body-nature.tsx:125-197 | the card as written throws during render exactly for an inherited name |
| BodyNaturePanel.CardDisplay | components/dashboard/body-nature.tsx:125-197 | profile prompt without a profile, analyse button without a value, the entry for a table key, "Unable to Analyze" for any other value, and never a throw |
| BodyNaturePanel.AgreeOutsideInheritedNames | components/dashboard/body-nature.tsx:185-197 | the written and the intended card agree on every value except the inherited names |
| BodyNaturePanel.InheritedNameCrashes | components/dashboard/body-nature.tsx:185-197 | "toString" crashes the card as written but reads "Unable to Analyze" on the intended card |
| BodyNaturePanel.StoredValuesUnable | components/dashboard/body-nature.tsx:185-197 | every lower-case value the user schema allows is shown as "Unable to Analyze" |
| BodyNaturePanel.Flatten | components/dashboard/body-nature.tsx:98 | `flatMap` starts with the first chat's messages and is empty for no chats |
| BodyNaturePanel.FlattenAppend | components/dashboard/body-nature.tsx:98 | flattening distributes over concatenating chat lists |
| BodyNaturePanel.FlattenContains | components/dashboard/body-nature.tsx:98 | a message is sent exactly when some chat holds it |
| BodyNaturePanel.BodyNatureCard.Face | components/dashboard/body-nature.tsx:125-197 | the card shows an entry exactly when there is a profile and the value is a table key |
| BodyNaturePanel.BodyNatureCard.AnalyzeBodyNature | components/dashboard/body-nature.tsx:80-113 | without a profile, only a redirect to /settings. Otherwise the flag is raised, then the profile and every chat's messages in order are sent, then the flag is lowered; an ok response's value replaces the shown one |
| ChatInput.Composer.SendDisabled | components/chat/chat-input.tsx:89 | the send button is disabled exactly when the input is disabled or the text is whitespace only |
| ChatInput.Composer.HandleSubmit | components/chat/chat-input.tsx:28-37 | when sending is disabled nothing happens. Otherwise `addMessage` gets the untrimmed text with role "user". If it throws, `onSend` is not called and the text stays; if not, `onSend` gets the same text, then the box is cleared |
| ChatInput.Composer.KeyDown | components/chat/chat-input.tsx:61-66 | Enter without Shift has exactly the effect of a submit: nothing while sending is disabled; otherwise `addMessage`, then `onSend` and a cleared box on success, or the kept text and the rethrown error on failure. Every other key, Shift+Enter included, changes nothing |

## Left out

- The cipher itself (CryptoJS AES keyed by the session id, lib/encryption.ts:26-35) is not modelled; `getKey`'s guard in front of it, which refuses a missing or empty session id, is. Decryption is an `Option`, and the model does not claim that a wrong key always throws. The whole-object `encrypt`/`decrypt` pair (lib/encryption.ts:13-24) is not used by the modelled schemas.
- app/api/body-nature/route.ts, `analyzeSleepQuality` and `getAyurvedicRecommendations` are external calls. Their results are inputs: the analysis response and `generated`.
- Payment (app/api/subscription/route.ts, app/subscription/page.tsx) is outside the modelled core.
- Prompt text, the Gemini SDK and `JSON.parse` are not modelled. The reply is an `Option<string>` and the parser a function from text to an optional `Gemini.Json`.
- Mongoose is modelled only for filter, sort, insert and delete. The following are not modelled:
  - casting of request values, which the model takes already typed. The generated days of a diet plan are the exception: their cast is an input that may fail;
  - validators on `findOneAndUpdate`;
  - conflicting `$set` paths;
  - the nested-path getter that makes `user.profile` an object even when it was never set. The model treats a never-set profile as absent, so the 404 guard of the generating routes fires on it.
- Gemini.StripFences: its own contract only bounds the length; what the replace removes is stated by StripFencesUnfenced, StripClosingFence and StripFencedBody, and replies with three backticks inside the body are not characterised.
- Query.SortDesc: Mongo leaves the order of equal keys unspecified. The model fixes it to insertion order, and the route contracts state only the descending order and the membership.
- Store.Database: a query failing after `connectDB` succeeded is not modelled apart from the insert errors of the schemas. `connected` stands for every store failure of a handler.
- Time zones are not modelled; every day boundary (`setHours`, `getDay`, `toISOString`, the weekday name) is taken in UTC.
- Numbers are exact reals or integers: IEEE rounding, `NaN` and `toFixed` display are not modelled.
- Text.ToLower lower-cases the ASCII letters only; JavaScript's full Unicode case mapping is not modelled.
- DietPlanPanel.GetTodaysPlan: an entry without a `day` string throws in `toLowerCase`; the model's entries always carry a day.
- ClientStore.WellnessStore.ShouldPromptNewCheckIn: an unparsable date makes `toISOString` throw; the model's dates are instants.
- BmiMeter: the `calculateBMI` fetch that writes the BMI back through `PUT /api/user` is not modelled, because it is React state and network I/O.
- Sounds, toasts, animation, loading flags, routing other than the two redirects, and rendering are not modelled.
- The messages route behind `addMessage` (`/api/chats/[id]/messages`) is not part of this model. `addMessage` is modelled on the client side from the response it receives.
- Concurrency is not modelled: each handler and store action runs to completion without interleaving.

## Findings

| source | as written | input that shows it | evidently intended | confidence | as-written member | corrected member |
|---|---|---|---|---|---|---|
| components/dashboard/body-nature.tsx:185 | `DOSHA_DESCRIPTIONS[bodyNature]` also finds members inherited from `Object.prototype`. These are truthy, so they pass the "Unable to Analyze" guard, and reading `characteristics.map` off them throws during render | a body-nature prediction of "toString" (or "constructor", "__proto__", …) from the external analysis service, which the route passes on unchecked | any value that is not one of the six table keys shows "Unable to Analyze" | low; not executed | BodyNaturePanel.DisplayAsWritten (shown by BodyNaturePanel.InheritedNameCrashes) | BodyNaturePanel.CardDisplay (used by BodyNaturePanel.BodyNatureCard.Face; BodyNaturePanel.AgreeOutsideInheritedNames) |
