# Personal health assistant: session core

The assistant is a small Flask application (`app.py`). Each user has a
session that holds two keys:
- `conversation_history`: a list of exchanges;
- `user_profile`: age, gender, weight, height, and lists of medical
  conditions, allergies and medications.

This project models that session and the request handlers that read and
change it:
- lazy initialisation before every request;
- the profile update behind `/save_profile` and the chat's profile data;
- the `/chat` and `/analyze_symptoms` exchanges, which append to the history;
- reading and clearing the history;
- the context block that `prepare_context` renders from the profile and the
  health category;
- the regular-expression heuristic `extract_profile_info`, which spots an
  age, a weight or a height in a chat message.

Modules:
- `Wrappers` (wrappers.dfy): `Option`.
- `Regex` (regex.dfy): a backtracking matcher for the fragment of Python's
  `re` that the three patterns use:
  - literal strings, greedy repeats of a character class, one capturing
    group, and an alternation of flat branches;
  - branches are tried left to right and counts from the greediest down;
    `re.search` tries start positions from the left.
  - `\d` is the ASCII digits and `\s` is Python's whitespace set.
- `ProfilePatterns` (patterns.dfy): the three patterns as data, and where
  each one matches. The position lemmas describe a match without running the
  matcher.
- `Extractor` (extractor.dfy): the lower-casing, the field table, the
  `Extraction` specification and the `ExtractProfileInfo` loop, plus what each
  field captures.
- `ExtractorSamples` (samples.dfy): two messages worked through to their
  exact result.
- `Profile` (profile.dfy): the seven-field profile and the key-by-key merge of
  `update_user_profile`.
- `Context` (context.dfy): `HEALTH_CATEGORIES` and the text of `prepare_context`.
- `Session` (session.dfy): specification functions for each handler's effect on
  the session, their lemmas, and the class `SessionState`. Its methods update
  the two keys in place and are proved equal to those functions.

## Behaviour worth noting

- Scalar fields show `None`. `prepare_context` reads each scalar with
  `.get(key, 'Not specified')`. After initialisation the keys are present
  with null, so the line shows the text `None`. "Not specified" appears only
  when the session has no profile at all. `Context.DefaultProfileShowsNone`
  states this.
- A list holding only the empty string also shows "Not specified", because
  it joins to `''`, which is falsy.
- A failed generation does not undo the profile data. The chat applies the
  request's profile data before calling the generator, so that update stays
  in place when the generator raises.
- "5'10 tall" yields the height `5`. The apostrophe is itself a height unit,
  and no unit follows `5'10`, so the leftmost match keeps only the `5`
  (`ExtractorSamples.FeetSample`).

## Model

| member | source | states |
|---|---|---|
| Context.HealthCategories | app.py:19-28 | The eight health categories, each with its description, as the table gives them |
| Context.CategoryDescription | app.py:191 | The description is always one of the table's descriptions or the fallback "General health advice"; `CategoryFallback` says which |
| Context.CategoryFallback | app.py:191 | The description is "General health advice" exactly when the category is not one of the eight keys of `HEALTH_CATEGORIES`; a known category gets its own entry |
| Context.JoinEmpty | app.py:186-188 | A join with a non-empty separator is empty exactly for no items or a single empty item |
| Context.ListFieldShown | app.py:186-188 | A list line shows "Not specified" exactly for `[]` or `['']`, and the joined items otherwise; it is never empty |
| Context.ProfileValues | app.py:178-188 | The profile block has one value for each of the seven labels |
| Context.ProfileLinesInjective | app.py:180-188 | With single-line values, two profile blocks are equal exactly when their value lists are equal, so the block determines the profile as shown |
| Context.PrepareContext | app.py:177-194 | The context opens with the profile header and ends with the category as given, its description and the closing indentation. What the profile lines show is stated by `ProfileLinesInjective`, `AbsentProfileLikeUnspecified`, `DefaultProfileValues` and `DefaultProfileShowsNone` |
| Context.AbsentProfileLikeUnspecified | app.py:178-188 | A session without a profile renders like a profile whose scalars are the text "Not specified" and whose lists are empty |
| Context.DefaultProfileValues | app.py:182-188 | The initialised profile shows `None` on its four scalar lines and "Not specified" on its three list lines |
| Context.DefaultProfileShowsNone | app.py:178-188 | The initialised profile renders differently from a missing profile |
| Profile.Merged | app.py:196-205 | An empty patch leaves the profile unchanged |
| Profile.MergedField | app.py:196-205 | Each of the seven fields becomes the patch's value when the patch has that key (null and empty lists included), and keeps its current value otherwise |
| Profile.MergeIgnoresOtherKeys | app.py:197-205 | Keys other than the seven are ignored: dropping them from the patch gives the same profile |
| Profile.MergeIdempotent | app.py:196-205 | Applying the same patch twice gives the same profile as applying it once |
| Profile.MergeCompose | app.py:196-205 | Two successive updates equal one update with the union of the patches, the later one winning on shared keys |
| Profile.MergeFull | app.py:196-205 | A patch that holds all seven keys decides the whole profile, whatever the profile was before |
| Profile.MergeOwnFields | app.py:196-205 | Merging a profile's own seven fields into any profile reproduces that profile |
| Session.Initialized | app.py:31-44 | After initialisation the session holds both keys |
| Session.InitializeDefaults | app.py:31-44 | Missing keys get an empty history and the default profile (null scalars, empty lists); present keys are kept; running it again changes nothing |
| Session.ChatRejectsEmpty | app.py:58-59 | The reply is the 400 "No message provided" error exactly when the message is empty, and then the session is unchanged |
| Session.ChatAppendsOne | app.py:83-93 | A chat appends at most one entry, at the end, and keeps the earlier entries. It appends exactly when it answers, and the entry holds the timestamp, the message, the generated text and the category |
| Session.ChatDetectsWithoutCommitting | app.py:95-106 | The answer suggests a profile update exactly when extraction found something, and then carries the extracted fields. The stored profile is the old one for an empty message and otherwise exactly the profile after the request's own profile data, so extraction never writes it; without profile data it does not change |
| Session.ChatFailureKeepsPatch | app.py:61-110 | When the generator fails, the reply is a 500 whose message is the generator's error. The history is unchanged, but the profile data already applied stays |
| Session.ChatContextSeesPatch | app.py:61-83 | The prompt's context is rendered from the profile after the request's profile data; the chat answers exactly when the generator returns text, and answers with that text |
| Session.SymptomAppends | app.py:144-175 | On generated text, a symptom analysis appends exactly one entry at the end: category `symptoms`, user text prefixed by "Symptom analysis request: ". On failure it returns a 500 and the session is unchanged. The profile is never touched |
| Session.ClearKeepsProfile | app.py:125-129 | Clearing empties the history and keeps the profile; clearing twice is clearing once |
| Session.SessionState.InitializeSession | app.py:31-44 | The session's new keys are `Initialized` of the old ones |
| Session.SessionState.UpdateUserProfile | app.py:196-206 | The stored profile is replaced by its merge with the patch, and the history is kept |
| Session.SessionState.SaveProfile | app.py:112-119 | The profile is updated as by `update_user_profile`, and the reply is success with the message "Profile updated successfully" |
| Session.SessionState.GetConversationHistory | app.py:121-123 | Returns the stored history, or the empty list when the session has none, and changes nothing |
| Session.SessionState.ClearHistory | app.py:125-129 | The new session is `Cleared` of the old one, and the reply is success without a message |
| Session.SessionState.Chat | app.py:50-110 | The new session and the reply are `ChatOutcome` of the old session, the request, the timestamp and the generator |
| Session.SessionState.AnalyzeSymptoms | app.py:144-175 | The new session and the reply are `SymptomOutcome` of the old session, the symptoms, the timestamp and the generator |
| Extractor.Lower | app.py:217 | Lower-casing keeps the length and leaves no ASCII capital. Each capital becomes the same letter in small, every other character is kept, and a character is a digit exactly when it was one before |
| Extractor.LowerIdempotent | app.py:217 | Lower-casing twice is lower-casing once |
| Extractor.Collected | app.py:215-219 | The dictionary built by the loop only has keys taken from the pattern table |
| Extractor.TableCollected | app.py:209-219 | Running the table in order sets `age`, `weight` and `height` to their captures, each key exactly when its pattern matched |
| Extractor.ExtractProfileInfo | app.py:208-221 | The loop's result is `Extraction(message)`, and a present result is never an empty dictionary |
| Extractor.ExtractionFields | app.py:215-221 | The result is `None` exactly when no pattern matched. Otherwise its keys are among `age`, `weight` and `height`, and each key is present exactly when its pattern matched, with that pattern's capture as the value |
| Extractor.NoDigitsNoExtraction | app.py:208-221 | A message without a digit, the empty message included, yields `None` |
| Extractor.DigitCapture | app.py:217-219 | For a pattern of the form digits, whitespace, unit: group 1 is present exactly when some run of digits is followed by a unit. It is then the leftmost such run, and it is a non-empty string of digits |
| Extractor.AgeCaptured | app.py:210 | The age is present exactly when some run of digits is followed, after optional whitespace, by `years old`, `year old`, `yo` or `age`. It is the leftmost such run: non-empty, all digits |
| Extractor.WeightCaptured | app.py:211 | The weight is present exactly when some run of digits is followed, after optional whitespace, by `kg`, `kilos`, `kilogram`, `pound` or `lbs`. It is the leftmost such run: non-empty, all digits |
| Extractor.HeightMatchShaped | app.py:212 | Where the height pattern matches, the captured span starts with a digit and holds only digits and at most one apostrophe |
| Extractor.HeightCapture | app.py:217-219 | For the height pattern's shape, group 1 is present exactly when some position matches. It is then the span of the leftmost match, shaped like a height |
| Extractor.HeightCaptured | app.py:212 | The height is present exactly when some position matches the height pattern: digits, an optional apostrophe and digits, optional whitespace, then `cm`, `meter`, an apostrophe, `ft` or `feet`. It is the span of the leftmost match, shaped like a height |
| ProfilePatterns.AgeAt | app.py:210 | The age pattern matches at a position exactly when a run of digits starts there and, after optional whitespace, an age unit follows; the group is the whole run |
| ProfilePatterns.WeightAt | app.py:211 | The weight pattern matches at a position exactly when a run of digits starts there and, after optional whitespace, a weight unit follows; the group is the whole run |
| ProfilePatterns.HeightAt | app.py:212 | At a position, the height pattern keeps the apostrophe and the second run of digits when a unit follows them. Otherwise it keeps the first run alone, when a unit follows that run |
| ProfilePatterns.YearsOldBranch | app.py:210 | The branch `years? old` matches exactly `years old` or `year old` |
| ProfilePatterns.AgeUnitsAt | app.py:210 | The age-unit alternation matches at a position exactly when `years old`, `year old`, `yo` or `age` starts there |
| ProfilePatterns.WeightUnitsAt | app.py:211 | The weight-unit alternation matches exactly when `kg`, `kilos`, `kilogram`, `pound` or `lbs` starts there; an optional plural `s` never changes the outcome |
| ProfilePatterns.HeightUnitsAt | app.py:212 | The height-unit alternation matches exactly when `cm`, `meter`, an apostrophe, `ft` or `feet` starts there |
| Regex.Search | app.py:217 | `re.search` finds the first start position from the left where the pattern matches; no earlier position matches, and `None` means no position matches |
| Regex.SearchFindsFirst | app.py:217 | When nothing matches before a position and the pattern matches at it, the search returns that position's match |
| Regex.FirstGroup | app.py:218-219 | For a pattern with a group, `group(1)` is present exactly when the search succeeds, and it is the text between the group's marks on the winning path |
| ExtractorSamples.AgeWeightSample | app.py:208-221 | "I am 34 years old and weigh 70 kg" yields exactly `{"age": "34", "weight": "70"}` |
| ExtractorSamples.FeetSample | app.py:208-221 | "5'10 tall" yields exactly `{"height": "5"}`: the apostrophe is taken as the unit |

## Left out

- Flask itself is not modelled: routing, the cookie session's signing and serialisation, JSON parsing and encoding, CORS, templates and `index`.
- The Gemini model is a function parameter from a prompt to generated text or an error. A prompt is modelled by its variable parts only (context and message, or symptoms); the fixed wording around them is not modelled.
- `get_health_tips` is not modelled. It does not read or change the session.
- Timestamps are an input. The wall clock and its `strftime` format are not modelled.
- `print` of the error in `chat` is not modelled.
- Python's dynamic typing is not modelled. Request fields are typed: the message and category are strings, `update_profile` is a boolean, and the profile data is a dictionary whose profile keys hold a scalar or a list of strings (`Profile.WellTyped`, `Session.TypedRequest`).
- A missing `request.json`, and non-string messages, are not modelled, nor are the 500 replies that type errors would produce.
- Profile scalars are kept as already-rendered text. The formatting of a JSON number or boolean in the f-string is not modelled.
- Session.SessionState.Chat: requires both session keys to be present. `initialize_session` runs before every request and guarantees this, so the `KeyError` path when a key is missing is not modelled.
- Session.SessionState.AnalyzeSymptoms: requires both session keys to be present, for the same reason.
- Session.SessionState.UpdateUserProfile: requires a stored profile, which `initialize_session` guarantees.
- Extractor.Lower: only ASCII letters are lower-cased. Python's full Unicode `str.lower()`, including case mappings that change the length, is not modelled.
- Regex.Search: `\d` is the ASCII digits only. Python's `\d` on `str` patterns also matches other Unicode decimal digits.
- Concurrent requests on one session are not modelled. Each handler is one atomic step on the session.
