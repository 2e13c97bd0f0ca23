# MindCare dashboard core in Dafny

MindCare is a Streamlit wellness dashboard. Almost all of `app.py` draws the user interface. This project models the parts that hold decision logic:

- **Chat responder** (`generate_chat_response`). It lower-cases the message and checks six crisis phrases first. It then tries five keyword categories in a fixed order: anxiety, depression, stress, sleep, positive. The first category that matches picks the reply. If nothing matches, it returns one of five supportive replies, indexed by the message length modulo five.
- **Goal and medication records.** `add_goal`, `toggle_goal`, `delete_goal`, `add_medication` and `toggle_medication` work on in-memory lists. The goals page splits goals into an active list and a completed list, and shows a progress summary from the two.
  `add_goal` (app.py:221-229) is dead code: nothing in app.py calls it. The goals page adds goals inline with a uuid id instead.
- **Integer metrics.** The adherence counts take only non-PRN ("as needed" excluded) medications. The percentage appears only when some medication is scheduled. There are two severity scales for symptoms.

Modules:

- `Text`: ASCII lower-casing. Also Python's substring test `k in s`, given both as a ghost definition (`Occurs`) and as an executable scan (`Contains`), proved to agree.
- `ChatResponder`: the responder as the source's `if` chain (`ChooseReply`, `GenerateChatResponse`). Also an ordered first-match-wins rule table (`FirstMatch`, `Classify`), proved to pick the same reply for every message.
- `Seqs`: the order-preserving list comprehension `[x for x in xs if keep(x)]`, with lemmas for concatenation, idempotence and partition.
- `Records`: record ids. Seeded records and goals added on the goals page carry a uuid string. Records made by `add_goal` and `add_medication` carry the list length, an integer. Python never considers a string equal to an integer.
- `Goals`, `Medications`, `Severity`: the record operations and the metrics.
- `Outcomes`: `Option` and `Result`.

Facts about app.py that shape the model:

- The responder returns one of 11 fixed replies.
- `toggle_goal`, `delete_goal` and `toggle_medication` act on every record whose id matches, and the model keeps that semantics without assuming ids are unique. The running page cannot reach a duplicate id, though:
  - goals added on the goals page get fresh uuids;
  - `add_medication` hands out 3, 4, 5, … after the uuid-id seeds, and medications are never deleted.
  The duplicate-id scenario in `Goals.AddAfterDeleteReusesId` goes through `add_goal`, which nothing calls. It shows what the all-matching semantics would do, not something a user can trigger.
- Medications added through the form carry no frequency at all. See Findings.

## Model

| member | source | states |
|---|---|---|
| Text.Lower | app.py:280 | the lower-cased message has the same length as the message; each character is lower-cased on its own |
| Text.LowerIdempotent | app.py:280 | lower-casing an already lower-cased message changes nothing |
| Text.Contains | app.py:284 | the scan answers true exactly when the keyword occurs at some position of the text |
| Text.ContainsAny | app.py:284 | `any(k in text for k in keywords)` is true exactly when some keyword of the list occurs in the text |
| ChatResponder.GenerateChatResponse | app.py:278-316 | the reply is always one of the 11 fixed strings; it is the crisis reply whenever the lower-cased message holds a crisis phrase |
| ChatResponder.Matches | app.py:288 | the executable `any(word in text ...)` test over a topic's keyword list holds exactly when some keyword of that topic occurs in the text |
| ChatResponder.ChooseReply | app.py:278-316 | the if-chain's choice: a topical reply only for a topic the lower-cased message mentions; the supportive reply only when no topic is mentioned, at index (message length mod 5) |
| ChatResponder.FirstMatch | app.py:287-305 | first match wins: the position returned is a rule the text mentions, and no earlier rule is mentioned; None means no rule is mentioned |
| ChatResponder.Classify | app.py:283-305 | the chosen topic is mentioned and no topic of higher precedence is; no topic is chosen only when none is mentioned |
| ChatResponder.RuleTableAgrees | app.py:278-316 | the source's if-chain and the ordered (keywords, reply) table pick the same reply for every message |
| ChatResponder.CrisisOverrides | app.py:282-285 | a crisis phrase anywhere in the lower-cased message yields the crisis reply, whatever else the message says |
| ChatResponder.EarliestTopicWins | app.py:287-305 | a message mentioning topic t and no earlier topic gets t's reply, whatever later topics it also mentions |
| ChatResponder.BetterOffDeadIsCrisis | app.py:283-305 | a message saying "better off dead" also mentions the positive word "better", yet gets the crisis reply |
| ChatResponder.FallbackByLength | app.py:307-316 | with no crisis or category keyword the reply is supportive reply number (message length mod 5) |
| ChatResponder.EmptyMessageReply | app.py:316 | the empty message gets the first supportive reply |
| ChatResponder.CaseInsensitive | app.py:280 | two messages with the same lower-case form get the same reply, fallback included; the fallback part rests on ASCII lowering, which keeps lengths (see Left out) |
| ChatResponder.LowerCasedMessageSameReply | app.py:280 | replying to the lower-cased message gives the same reply as replying to the message; the fallback part rests on ASCII lowering, which keeps lengths (see Left out) |
| ChatResponder.RepliesDistinct | app.py:285-314 | the 11 replies are pairwise different |
| ChatResponder.ReplyTextInjective | app.py:283-316 | two different reply choices never produce the same text, so the text returned tells which branch chose it |
| ChatResponder.ReplyIdentifiesTopic | app.py:283-316 | a message gets topic t's reply if and only if it is classified under t |
| Seqs.Filter | app.py:238 | the comprehension keeps exactly the elements satisfying the condition and is never longer than its input |
| Seqs.FilterFullIffAll | app.py:1417-1418 | the comprehension removes nothing exactly when every element satisfies the condition, which is how a full taken count means everything scheduled is taken |
| Goals.AddGoal | app.py:221-229 | one open goal with id = old length and the given text is appended; the earlier goals are untouched |
| Goals.AddGoalOpensOne | app.py:221-229 | adding a goal raises the total and the active count by one and leaves the completed count unchanged |
| Goals.AddAfterDeleteReusesId | app.py:221-229 | through the uncalled `add_goal`, a goal added after a deletion reuses an id still in the list, and toggling that id flips both goals |
| Goals.ToggleGoal | app.py:231-235 | exactly the goals whose id matches have their completion negated; every other goal, the length and the order are unchanged |
| Goals.ToggleGoalTwice | app.py:231-235 | toggling the same id twice restores the original list |
| Goals.ToggleAbsentGoal | app.py:231-235 | toggling an id no goal carries leaves the list unchanged |
| Goals.DeleteGoal | app.py:237-238 | the result holds exactly the goals whose id differs; its length drops by the number of goals with that id |
| Goals.DeleteGoalIdempotent | app.py:237-238 | deleting the same id twice equals deleting it once |
| Goals.DeleteGoalKeepsOrder | app.py:237-238 | deletion keeps survivors in their original relative order (it distributes over concatenation) |
| Goals.DeleteAbsentGoal | app.py:237-238 | deleting an id no goal carries leaves the list unchanged |
| Goals.ActiveGoals | app.py:797 | the active section holds exactly the goals not completed |
| Goals.CompletedGoals | app.py:798 | the completed section holds exactly the completed goals |
| Goals.ProgressSummary | app.py:843-845 | the completed and active figures are the sizes of the completed and active sections, they add up to the total, and the two sections together hold exactly the goal list, duplicates included |
| Goals.ToggleShiftsCompleted | app.py:231-235 | toggling an id removes the matching completed goals from the completed count and adds the matching open ones |
| Goals.ToggleUniqueGoal | app.py:231-235 | when a single goal carries the id, toggling changes the completed count by exactly one, in the right direction |
| Medications.AddMedication | app.py:251-259 | one untaken medication with id = old length is appended; it has no frequency |
| Medications.ToggleMedication | app.py:261-265 | exactly the medications whose id matches have their taken flag negated; everything else is unchanged |
| Medications.ToggleMedicationTwice | app.py:261-265 | toggling the same id twice restores the original list |
| Medications.ScheduledAsWritten | app.py:1416 | the non-PRN filter as written fails with KeyError exactly when some record lacks a frequency; otherwise it is the scheduled list |
| Medications.AddedMedicationBreaksAdherence | app.py:251-259 | after any medication is added through the form, the as-written non-PRN filter fails with KeyError |
| Medications.AddedMedicationIsScheduled | app.py:251-259 | with a missing frequency read as "Daily", an added medication raises the scheduled count by one and leaves the taken count unchanged |
| Medications.FrequencyOf | app.py:1452 | a record's own frequency, or "Daily" when it has none |
| Medications.Scheduled | app.py:1416 | the scheduled list holds exactly the medications whose frequency is not "PRN" |
| Medications.Adherence | app.py:1416-1418 | taken ≤ scheduled ≤ number of medications; the denominator counts the non-PRN medications; the two counts are equal exactly when every scheduled medication is marked taken today |
| Medications.MedsToday | app.py:497-498 | the dashboard's one-pass counts: taken ≤ scheduled ≤ number of medications |
| Medications.MedsTodayAgrees | app.py:497-498 | the dashboard's one-pass "not PRN and taken" count equals the medications page's count |
| Medications.PrnNeverCounts | app.py:1416-1418 | a PRN medication placed anywhere in the list changes neither the taken nor the scheduled count |
| Medications.ToggleKeepsScheduled | app.py:1416-1418 | marking medications taken or untaken never changes the scheduled count |
| Medications.PercentBounds | app.py:1421 | taken / scheduled × 100 lies in [0, 100] and equals 100 exactly when all are taken |
| Medications.AdherencePercent | app.py:1420-1421 | no percentage when nothing is scheduled; otherwise a value in [0, 100] that is 100 exactly when every non-PRN medication has its taken-today flag set |
| Severity.SymptomBand | app.py:546-551 | Good exactly for severity ≤ 3, Moderate exactly for 4..7, High exactly for ≥ 8 |
| Severity.SymptomBandMonotone | app.py:546-551 | a higher severity never gets a milder band |
| Severity.SeverityColour | app.py:403 | green exactly for ≤ 3, yellow exactly for 4..6, red exactly for ≥ 7 |
| Severity.SeverityColourMonotone | app.py:403 | a higher severity never gets a milder colour |
| Severity.ScalesDifferOnlyAtSeven | app.py:403 | the two scales agree at every severity except 7, where the symptom check says Moderate and the list shows red |

## Left out

- Text.Lower: only ASCII letters are lower-cased. Python's `str.lower` is Unicode-aware, so keyword tests on non-ASCII text are not modelled.
- ChatResponder.CaseInsensitive and ChatResponder.LowerCasedMessageSameReply: the fallback index is the length of the message before lower-casing (app.py:316), and ASCII lowering keeps lengths. So in the model, equal lower-case forms mean equal lengths. Python's lowering can change a length. For example, "İ" (length 1) and "i̇" (length 2) have the same `lower()` but get supportive replies 1 and 2. Likewise "İ" gets supportive reply 1, while its lower-cased form "i̇" gets reply 2. The fallback part of both lemmas therefore holds only for text whose lowering keeps its length.
- The goals page's inline add (app.py:778-788): it appends a goal with a fresh uuid id and the stripped text. Generating uuids is randomness, and stripping is string handling outside the core. `Goals.AddGoal` models the uncalled `add_goal` instead.
- Medications.AdherencePercent: gives the exact quotient as a `real`. It leaves out the float division and the `:.0f` rounding of the displayed text.
- The chat form's handling around the responder: `strip()`, the empty-message guard, appending to the message history, and the fixed "Crisis Help" message (app.py:1310-1333). This is UI state.
- Mood logging, the grouped daily mean, the overall average and the trend delta (app.py:155-218). They use pandas and floating point.
- The dashboard's 7-day average mood (app.py:358): a plain `sum`/`len` over the last seven entries, in floating point.
- Appointment "Today" / "Tomorrow" / "In N days" labels, the upcoming-appointment filter, mood "days ago" labels and the time-of-day greeting. They read the wall clock.
- Journal entries, community posts and the hardcoded therapist search results. They are not part of the decision logic.
- Session seeding, which includes a random mood sample. It is fixture data.
- Page rendering, navigation, forms, Plotly charts and CSS loading. These are UI and file I/O.
- Goal and medication times are not interpreted. `Goal.created` is an uninterpreted integer, and medication times are strings.
- `taken_today` is never reset for a new day. The source has no rollover rule, so there is nothing to model.

## Findings

| source | as written | input that shows it | evidently intended | confidence | as-written member | corrected member |
|---|---|---|---|---|---|---|
| app.py:251-259 | `add_medication` stores only id, name, time and `taken_today`. The adherence filters at app.py:497 and app.py:1416 read `m['frequency']` for every record, which raises KeyError for such a record. | Add any medication through the form. The next rerun of the medications page or the dashboard fails. | Treat a missing frequency as "Daily", as the medication list already does with `med.get('frequency', 'Daily')` at app.py:1452. | high, not executed | Medications.AddedMedicationBreaksAdherence | Medications.Adherence, Medications.AddedMedicationIsScheduled |
