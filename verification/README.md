# Anne & Hiro coaching core, modelled in Dafny

Two AI coaches, Dr. Anne Rosental and Hiro Lin, answer each chat message from one of three
sources, in a fixed priority order:

1. A **safety script** when the message contains a crisis phrase (red) or a warning phrase
   (amber).
2. Otherwise a **canned reply** from the coach's scenario catalog. The catalog entry must be
   at least 70% similar to the message.
3. Otherwise a **generated reply** from an external text-completion service. If that call
   fails, a fixed apology is returned instead.

Each coach keeps a session record: the message log, a `session_started` flag and a
`red_zone_triggered` flag. Anne also keeps a reply count and the user's first name. She
learns the name from a self-introduction and now and then addresses the user by it.

This project models that routing core as pure functions over immutable session values.

- **Shared modules.** `Text`, `Safety`, `Scenarios`, `Conversation` and `Routing` hold the
  logic both coach classes duplicate. It is defined once here.
- **Per-coach modules.** `AnneNames`, `Anne` and `Hiro` hold what only one coach does.
- **Three parameters.** Three things the code gets from outside are passed in as parameters:
  - the similarity ratio of `difflib.SequenceMatcher`, a function to `real`, applied to the
    lower-cased message and phrase;
  - the completion service, a function from the request messages to `Some(text)`, or `None`
    on failure;
  - the 60/40 random choice of where Anne puts the name, a boolean (`trailing`).

Modelled behaviour worth knowing:

- **`get_response` never reads `red_zone_triggered`.** A terminated session is routed like a
  live one. The core itself never redirects a message after a crisis
  (`Anne.FlagNotConsulted`, `Hiro.FlagNotConsulted`). The callers block further input
  instead: the command-line loop at main.py:216-220 and the web page at
  streamlit_app.py:265-268. Both are outside this model.
- **Truthiness tests.** `if scenario_key:`, `if exact_response:` and `if self.user_name`
  treat the empty string as false. A matched key `""` or an empty catalog reply therefore
  falls through to the generator.
- **Anne's leading-name splice can raise.** It reads `response[0]`, so on an empty reply it
  raises `IndexError` out of `get_response`. This happens after the log, the flag and the
  count have already been updated. Only an empty generated reply can reach it. The model
  returns the outcome `IndexError` with the updated session.

## Model

| member | source | states |
|---|---|---|
| `Text.Contains` | Anne_Rosental.py:50 | the scan is true exactly when the keyword occurs somewhere in the text (Python `in`) |
| `Text.ContainsAny` | Anne_Rosental.py:49-51 | the keyword loop answers true exactly when some keyword of the list occurs in the text |
| `Text.SpanFrom` | Anne_Rosental.py:74 | the run a greedy `\s+` or `[a-z]+` consumes: every character in it qualifies and the next one does not |
| `Safety.DetectSafetyLevel` | Anne_Rosental.py:33-64 | red exactly when a crisis phrase occurs in the lower-cased message; amber exactly when none does but a warning phrase does; green exactly when neither occurs |
| `Safety.RedTakesPrecedence` | Hiro_Lin.py:35-48 | any crisis phrase, in any ASCII case, makes the message red, even when warning phrases also occur |
| `Safety.AmberWithoutRed` | Hiro_Lin.py:50-61 | a warning phrase with no crisis phrase gives amber |
| `Safety.CaseInsensitive` | Anne_Rosental.py:38 | a message and its lower-cased form get the same tier |
| `Safety.EmptyIsGreen` | Anne_Rosental.py:64 | the empty message is green |
| `Safety.ExtendingNeverLowersTier` | Anne_Rosental.py:38-64 | adding text before or after a message never lowers its tier |
| `Safety.KillMyselfIsRed` | Anne_Rosental.py:41-51 | "I want to kill myself" is red |
| `Scenarios.ScanFrom` | Anne_Rosental.py:142-149 | the loop with its running best finishes on the first highest-ratio qualifying entry, or none |
| `Scenarios.FindMatchIndex` | Anne_Rosental.py:136-151 | no match exactly when no entry with a phrase reaches 0.7; otherwise the entry reaches 0.7, no entry beats it and every earlier qualifying entry is strictly lower |
| `Scenarios.FindMatchingScenario` | Hiro_Lin.py:122-137 | the returned key belongs to that first-best entry; `None` exactly when nothing qualifies |
| `Scenarios.FirstBestIsUnique` | Anne_Rosental.py:147-149 | at most one entry is first-best, so the match is determined |
| `Scenarios.NeverBelowThreshold` | Hiro_Lin.py:126-133 | a matched entry has a phrase and a ratio of at least 0.7 |
| `Scenarios.TieGoesToEarlier` | Hiro_Lin.py:133-135 | of two qualifying entries with equal ratio, the later one is never chosen |
| `Scenarios.PhraselessEntryIgnored` | Anne_Rosental.py:142-143 | inserting an entry without a `"user"` phrase anywhere in the catalog leaves the chosen key unchanged |
| `Scenarios.GetExactResponse` | Anne_Rosental.py:153-157 | an unknown key gives ""; a non-empty answer is the reply stored under that key |
| `Scenarios.ExactResponseOfEntry` | Hiro_Lin.py:139-143 | with distinct keys, looking up an entry's key gives its reply, or "" when it has none |
| `Conversation.GetCreativeResponse` | Anne_Rosental.py:159-184 | the log gains the user turn and then the returned text; the text is the service's answer, or the fixed apology when the call fails |
| `Conversation.RequestEndsWithUserTurn` | Hiro_Lin.py:147-153 | the request is the system prompt, then the prior log in order, then the new user turn |
| `Routing.Route` | Anne_Rosental.py:198-240 | safety exactly when the message is not green; canned only for a non-empty first-best key, carrying the reply `get_exact_response` gives for it, which must be non-empty; generated exactly when green and no such key and reply exist |
| `Routing.NoMatchGenerates` | Hiro_Lin.py:203-217 | a green message that no entry qualifies for goes to the generator |
| `AnneNames.NameGroupAt` | Anne_Rosental.py:74 | a name is captured exactly when the letter run at that position is at least two long, and it is that whole maximal run |
| `AnneNames.IntroAt` | Anne_Rosental.py:74-75 | pattern 1 at one position captures a letter run of the message |
| `AnneNames.NameHereAt` | Anne_Rosental.py:80 | the `Name here` form captures the letter run at that position |
| `AnneNames.GreetingAt` | Anne_Rosental.py:80-81 | pattern 2 at one position, with or without the greeting, captures a letter run of the message |
| `AnneNames.SearchIntro` | Anne_Rosental.py:75 | a search for pattern 1 returns a letter run of the message |
| `AnneNames.SearchGreeting` | Anne_Rosental.py:81 | a search for pattern 2 returns a letter run of the message |
| `AnneNames.ExtractUserName` | Anne_Rosental.py:66-85 | an extracted name is a capital followed by at least one small letter, occurs in the message up to case, and comes from pattern 1 whenever pattern 1 matches anywhere |
| `AnneNames.IntroductionExample` | Anne_Rosental.py:73-77 | "I'm sarah" yields "Sarah" |
| `AnneNames.StripTerminalMarks` | Anne_Rosental.py:101 | `rstrip('.?!')`: a prefix, only marks removed, and it no longer ends in a mark |
| `AnneNames.AddNameNaturally` | Anne_Rosental.py:87-108 | fails only for the leading placement on an empty reply; the name always appears; trailing puts `, name` just before a final `.`/`?`/`!`, or `, name."` after the stripped text of a quoted ending, or `, name.` after the whole reply; leading is `name, ` and then the reply with only its first character lower-cased |
| `Anne.GetSafetyResponse` | Anne_Rosental.py:110-134 | a script exactly for red and amber; the crisis script for red and the warning script for amber |
| `Anne.LearnName` | Anne_Rosental.py:192-196 | only the name changes; while it is unset and the session has not started it becomes the extracted name (unchanged when nothing is extracted), and at any other time it stays as it was |
| `Anne.GetResponse` | Anne_Rosental.py:186-248 | every branch appends the user turn and then the undecorated reply, adds 1 to the count, sets the crisis flag exactly on red and never clears it, starts the session exactly on green, and changes only the returned text by the name splice, which happens exactly when a name is known and the count is a multiple of 3 (safety) or 6 (otherwise) |
| `Anne.PlacementOnlyDecorates` | Anne_Rosental.py:215-246 | the random placement never changes the session |
| `Anne.FlagNotConsulted` | Anne_Rosental.py:186-248 | a terminated session gets the same answer as a live one |
| `Anne.ApologyOnFailure` | Anne_Rosental.py:181-184 | a failed completion logs and returns the apology, possibly with the name spliced in |
| `Anne.IndexErrorOnlyOnEmptyGeneratedReply` | Anne_Rosental.py:106 | `get_response` raises exactly for an empty generated reply, a known name, a count that is a multiple of 6, and the leading placement |
| `Anne.TerminationIsSticky` | Anne_Rosental.py:207-209 | once terminated, a session stays terminated through any messages until a reset |
| `Anne.EveryMessageCounted` | Anne_Rosental.py:201-248 | without a reset, n messages add n to the count and 2n turns to the log, leaving earlier turns untouched |
| `Anne.NameIsKept` | Anne_Rosental.py:258-265 | a learned name survives all later messages and resets |
| `Anne.CrisisExample` | Anne_Rosental.py:201-209 | "I want to kill myself" terminates the session and logs the user turn and the crisis script |
| `Anne.ResetConversation` | Anne_Rosental.py:258-265 | reset gives the fresh coach state, except that the learned name is kept |
| `Anne.ResetIsIdempotent` | Anne_Rosental.py:260-264 | resetting twice is resetting once |
| `Hiro.GetSafetyResponse` | Hiro_Lin.py:63-92 | the crisis record (type "red", three parts) exactly for red, the warning text for amber, nothing for green |
| `Hiro.IsAskingAboutProfessionalHelp` | Hiro_Lin.py:98-120 | true exactly when some listed keyword occurs in the lower-cased message |
| `Hiro.GetResponse` | Hiro_Lin.py:172-217 | every branch appends the user turn and one assistant turn (only the first part of the crisis record on red); returns the record exactly on red, the warning on amber and the catalog reply verbatim on a canned hit; sets the crisis flag exactly on red; starts the session exactly on green |
| `Hiro.ResetConversation` | Hiro_Lin.py:227-231 | reset gives the fresh coach state |
| `Hiro.ApologyOnFailure` | Hiro_Lin.py:167-170 | a failed completion logs both turns and returns the apology |
| `Hiro.ExactPhraseGetsCannedReply` | Hiro_Lin.py:204-212 | a green message equal to the phrase of a catalog entry gets that entry's reply verbatim, whatever the service would say, when the entry has a non-empty key and reply, keys are distinct, the similarity is at most 1.0 and rates identical text 1.0, and no earlier entry also reaches 1.0 |
| `Hiro.FlagNotConsulted` | Hiro_Lin.py:172-217 | a terminated session gets the same reply as a live one |
| `Hiro.TerminationUntilReset` | Hiro_Lin.py:192-194 | after any run of actions the session is terminated exactly when a red message arrived (or it already was terminated) since the last reset |
| `Hiro.TwoTurnsPerMessage` | Hiro_Lin.py:183-189 | without a reset, n messages add 2n turns to the log |

## Left out

- OpenAI client construction, API key lookup, model name, temperature and token cap: a network call. It is the `Completion` parameter.
- `SequenceMatcher.ratio`: a library floating-point computation. It is the `Similarity` parameter, and only the selection rule is verified.
- `random.random()`: it is the `trailing` parameter.
- Timestamps in logged turns and the `print` safety logs: side effects with no bearing on routing.
- Unicode: lower-casing, regex case folding and `\s` are modelled on ASCII only. Non-ASCII letters never count as letters or whitespace.
- A completion whose content is `None` rather than a string is not modelled. The service yields text or fails.
- `add_message` and `get_conversation_history` are plain field updates and reads of the log. They are the `history` field.
- `response_pattern_counter` is only ever initialised and reset. It is kept as a field.
- Staged, timed delivery of Hiro's crisis parts, the CLI and the web UI (main.py, streamlit_app.py), including the caller-side block after a crisis. These are presentation and are not part of this model.
- The scenario database and the prompt texts (conversation_database.py and the two prompt files) are static data, not part of this model. The catalog and the system prompt are parameters.
- `Hiro.GetTerminationWarning` returns the fixed text `TerminationWarning` and carries no contract. Like the safety scripts, it is data. Only the callers show it.
- `Anne.IsSessionTerminated` and `Hiro.IsSessionTerminated` are plain reads of `red_zone_triggered` and carry no contract. What they report is stated in `Anne.TerminationIsSticky` and `Hiro.TerminationUntilReset`.
- `Anne.Decorate` is the helper for the name step at the end of each branch (Anne_Rosental.py:217-218, 234-235, 245-246) and carries no contract. Its effect is stated in `Anne.GetResponse`.
- `is_asking_about_professional_help` is never called by `get_response`. It is modelled on its own.
- AnneNames.IntroAt: states only that the capture is a letter run somewhere in the message, not which one.
- AnneNames.NameHereAt: does not state that `here` follows the name; only that the capture is the letter run at that position.
- AnneNames.GreetingAt: states only that the capture is a letter run of the message, not where the greeting ends.
- AnneNames.SearchIntro: does not state that the leftmost matching position is taken, nor that a pattern-1 match is returned whenever one exists; `IntroductionExample` is the only case shown to match.
- AnneNames.SearchGreeting: does not state that the leftmost matching position is taken, nor that a pattern-2 match is returned whenever one exists.
- AnneNames.ExtractUserName: does not characterise when pattern 2 is used beyond "pattern 1 matched nowhere".
- Anne.ApologyOnFailure: does not say where the name is spliced into the apology; that is `AddNameNaturally`'s contract.
