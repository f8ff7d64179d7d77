# DollOS verification model

A Dafny 4.11 model of the state machines in the DollOS daemon that promise
something over whole runs, with proofs of those promises. `dafny verify
dfyconfig.toml` checks everything.

- **Self-revision** (`EvolutionModel`, `EvolutionMachine`, `EvolutionProofs`,
  `EvolutionShown`, `EvolutionStray`, `EvolutionTheorems`, `EvolutionEffects`,
  `EvolutionDaemon`): how a text becomes "who I am now". Three
  pieces of durable state, an append-only log, the file `current_self.md` and one
  pending slot, are written by turns, a skeptic's verdict and a keeper's pass, with
  outside edits and crashes between any two writes. Each operation is a list of
  writes computed from what it read; a crash or an I/O error leaves a prefix of the
  list. `EvolutionEffects` says what each decision leaves when nothing cuts it short;
  `EvolutionDaemon` holds the imperative code, shown to do those writes.
- **Turn harness** (`Runner`, `Reply`, `Failures`, `Executor`, `Permissions`): the
  bounded tool loop with all its exits, the reassembly of a streamed reply, the
  failure counters, the taint that narrows what may run, and who may run what.
- **Conversation pages** (`Pages`, `Conversations`, `Recency`, `MindTurn`): snapshot
  and deltas, memory hits and their provenance, the least-recently-used store, and
  turns run on a page.
- **Streaming text** (`Chunker`, `Strings`), **memory index** (`Like`, `Markdown`,
  `Fts`) and **supervision** (`Supervisor`).
- **Schedule** (`Toml`, `Schedule`, `Planning`, `Firing`): file format, editing,
  firing.
- **Inbound messages** (`Bridge`, `Attention`, `Inbound`): capture and forwarding,
  the attention gate, debounced batches.

Hashes are injective, times and windows are reals (whole microseconds in the
schedule), and persona rules, similarity, NFKC and the skeptic are parameters.
History variables (`born`, `trace`, `page`, `sent`, `history`) record what happened;
no branch reads them.

## Where the code does not keep what it says

Each is stated as a lemma with the exact condition, or with the whole family on
which it fails.

- An adoption may take a candidate that was not shown in its turn: a reject that
  raises behind clearing the slot leaves the turn without its latch (exactly then:
  `OnlyRatifiedText`; a run within the trigger's gates: `AdoptsUnseen`).
- After an adoption cut before its file was written, a further outside edit that
  passes the checks is proposed, not undone (`AdoptCrashHeals`).
- `base <= interval <= cap` needs configured bounds that nothing checks
  (`IntervalBounds`).
- `hits_in_context` promises never to name what she never saw; a tool-habit hit
  that does not parse is recorded as given and never shown (`HonestContext`,
  `NeverShown`).
- The scope filter's comment calls the file prefix byte-identical; SQLite's LIKE
  folds ASCII case (`LikePrefix`).
- Indexing one file differs from a reindex when roots overlap or none finds it
  (`IncrementalExact`).
- `WriteSchedule` accepts fractions of a second, which its file drops; two times in
  one second then collide (`WholeSeconds`, `HalfSecondCollides`).
- `AmbientLog.prune`, which nothing calls yet, makes the next process forward a
  pruned message again (`TwiceAfterPrune`).
- The restart delay's cap of 60 seconds is never reached (`RestartBound`).
- A stop may return while a process it aborted right behind its fork, and killed, is
  not reaped yet (`GoneAfterStop`, `ReapCancelled`).

## Model

| member | source | states |
|---|---|---|
| EvolutionTheorems.OnlyRatifiedText | src/dollos/tools.py:1314-1471 | In every run (turns, verdicts, keeper passes, outside edits, crashes and I/O errors between any two writes): each adopted text was announced by an earlier log line, passed the mechanical checks and a skeptic PASS; its `old_text` is the text in force before it and is no echo of it; no announcement is adopted twice; and it was shown in the adopting turn if and only if no reject of that turn had failed half-way before |
| EvolutionShown.StepKeepsShown | src/dollos/tools.py:1341-1350 | Every step keeps the invariant behind that: behind a reject that failed half-way the turn has seen nothing that is pending, and before one the surfaced candidate is the pending one |
| EvolutionStray.AdoptsUnseen | src/dollos/tools.py:1368-1385 | The other side is real: for any two texts that pass the checks, any gates and any configuration that surfaces, a run in which every pass begins behind its gates adopts, behind a reject that raised after clearing the slot, a text no turn was shown |
| EvolutionStray.GatedLegal | src/dollos/mind/evolution_trigger.py:150-198 | A run whose passes and verdicts keep the trigger's gates (idle time, interval, material, consolidation, cooldowns, pending slot) is a run of the protocol |
| EvolutionTheorems.PendingIsAnnounced | src/dollos/mind/evolution.py:128-192 | Whatever is pending has its own earlier log line; at most two counter rounds; a counter under review always carries a fallback, which has its line too |
| EvolutionTheorems.NoStaleVerdict | src/dollos/mind/evolution_trigger.py:227-290 | The slot and the text in force that a verdict read before awaiting the skeptic still hold when it writes back |
| EvolutionTheorems.SlotOwners | src/dollos/mind/evolution_trigger.py:150-198 | A slot under review is changed only by the verdict, a slot on offer only by the turn; a keeper pass never overwrites a slot born while it ran |
| EvolutionProofs.StepKeepsInv | src/dollos/mind/evolution.py:389-466 | Every step of every kind, cut short at any write, keeps the protocol invariant |
| EvolutionTheorems.TripwireSettles | src/dollos/mind/evolution.py:389-466 | From every disk state one tripwire run leaves the file equal to the text in force or a slot pending; it never changes the text in force nor a pending slot |
| EvolutionTheorems.TripwireIdempotent | src/dollos/mind/current_self.py:51-87 | A second tripwire run has nothing to write: an outside edit is reported once |
| EvolutionTheorems.TripwireCrashTransparent | src/dollos/mind/evolution.py:389-466 | A tripwire cut at any write and run again ends with the same file, slot and text in force as one that was never cut |
| EvolutionTheorems.AdoptCrashHeals | src/dollos/mind/evolution.py:290-368 | After an adoption cut behind its log line or its file, the next reflection retires the adopted slot; it brings the file to the adopted text exactly when the file was already written, was in step, or holds no further edit that passes the checks, and otherwise proposes that edit |
| EvolutionTheorems.BoundedLife | src/dollos/mind/evolution.py:144-192 | From every reachable state an old enough proposal sees at most 3*(3 + max_surfacings + 1) completed verdicts and surfacings before its slot is cleared |
| EvolutionTheorems.RankFalls | src/dollos/mind/evolution_trigger.py:245-290 | The lexicographic measure (counter rounds left, review before offer, verdict errors or surfacings left) never rises and falls with every completed verdict and surfacing |
| EvolutionTheorems.MarkBounds | src/dollos/mind/evolution.py:572-592 | hwm_before <= evolution_hwm <= length of the log, in every run, crashes included |
| EvolutionTheorems.MarkMoves | src/dollos/mind/evolution_trigger.py:347-363 | The mark moves forward only when a pass is booked as no_change, kill or candidate, to where the log ended when the pass began, and back only at an expiry |
| EvolutionTheorems.ExpiryGivesBack | src/dollos/mind/evolution_trigger.py:251-269 | Both expiries (age, third verdict error) log the expiry, clear the slot, restore the file and return the mark to hwm_before |
| EvolutionTheorems.IntervalBounds | src/dollos/mind/evolution.py:562-569 | base <= interval <= cap in every run if and only if 0 <= base <= cap, which nothing checks |
| EvolutionEffects.KilledRewriteComesBack | src/dollos/mind/evolution_trigger.py:227-290 | She rewrites a proposal; whatever happens until the skeptic's verdict on the rewrite (turns, errors below the bound, edits, crashes, restarts): when it is a kill, the proposal she rewrote is back on offer, one round later, otherwise itself, with the skeptic's reason as its notice |
| EvolutionEffects.KilledCounter | src/dollos/mind/evolution_trigger.py:283-287 | A killed rewrite leaves exactly one more line and, on offer, the text, rationale, kind and announcement of its fallback, with the reason, the rewrite's round, age and mark, and no counts |
| EvolutionEffects.KilledEdit | src/dollos/mind/evolution_trigger.py:288-290 | A killed outside edit leaves no slot, one more line, and a file that reads as the text in force; nothing else changes |
| EvolutionEffects.PassedSlot | src/dollos/mind/evolution_trigger.py:280-282 | A passed text is on offer; the slot is otherwise itself and the log unchanged |
| EvolutionEffects.FailedBelow | src/dollos/mind/evolution_trigger.py:241-273 | The first two skeptic errors leave the same slot with one more error and its time, and one line |
| EvolutionEffects.FailedOut | src/dollos/mind/evolution_trigger.py:248-269 | The third withdraws the text and gives its evidence back, in memory and on disk |
| EvolutionEffects.Rejected | src/dollos/tools.py:1368-1385 | Rejecting leaves one line, no slot, the file as the text in force, the latch, and the interval doubled up to the cap (an outside edit's decision leaves it) |
| EvolutionEffects.Adopted | src/dollos/tools.py:1387-1435 | An empty text or an echo of the proposal adopts the proposal itself: its line with the text it replaces, the file, no slot, the base interval, the latch; when the file cannot be written, an error line instead |
| EvolutionEffects.Countered | src/dollos/tools.py:1437-1471 | Any other text that passes the checks, is no echo of the text in force and has a round left goes under review with the proposal behind it |
| EvolutionEffects.Refused | src/dollos/tools.py:1330-1360 | Everything else changes nothing, and she may decide again |
| EvolutionEffects.Expired | src/dollos/mind/evolution.py:325-338 | A proposal shown max_surfacings times and min_age_days old is withdrawn and its evidence given back |
| EvolutionEffects.ShownAgain | src/dollos/mind/evolution.py:340-346 | Any other proposal is shown: one more surfacing, its notice used up |
| EvolutionEffects.Retired | src/dollos/mind/evolution.py:314-323 | A proposal that is in force already is retired with a repair line |
| EvolutionEffects.NothingToShow | src/dollos/mind/evolution.py:310-312 | Without a proposal, and while one is under review, nothing is shown and nothing changes |
| EvolutionEffects.TripwireLeaves | src/dollos/mind/evolution.py:389-466 | A file in step is left alone; one an adoption did not reach is repaired; any other is an outside edit, logged once, undone when it fails the checks and proposed otherwise, unless something is pending |
| EvolutionEffects.ReviewedPass | src/dollos/mind/evolution_keeper.py:204-337 | A pass with a new text, and its booking: passed it is on offer with the mark moved, unless a slot was born meanwhile; killed it is logged and the interval grows; a skeptic error is no attempt |
| EvolutionEffects.RestatedPass | src/dollos/mind/evolution_keeper.py:204-315 | A text that restates is given back once; the second report is judged in its place, and killed when it restates again |
| EvolutionEffects.OtherPass | src/dollos/mind/evolution_keeper.py:204-315 | A report that does not parse is no attempt; no change and a text that fails the checks are logged and slow the passes |
| EvolutionDaemon.LatestAdopt | src/dollos/mind/self_history.py:64-70 | The backward scan finds the newest adopt line |
| EvolutionDaemon.LatestOpenEdit | src/dollos/mind/self_history.py:93-112 | The backward scan finds the newest external edit no terminal line follows |
| EvolutionDaemon.Daemon.RestoreFile | src/dollos/mind/evolution.py:349-368 | Writes or deletes the file exactly when it does not read as the text in force |
| EvolutionDaemon.Daemon.ProcessTripwire | src/dollos/mind/evolution.py:389-466 | Does the planned writes in order, however far the disk lets it |
| EvolutionDaemon.Daemon.SurfaceOrExpire | src/dollos/mind/evolution.py:290-346 | The same for surfacing, expiry and retiring an adopted slot |
| EvolutionDaemon.Daemon.SelfRevision | src/dollos/tools.py:1314-1471 | The same for adopt, reject and counter, with the latch and the interval set only behind the last write |
| EvolutionDaemon.Daemon.Reverdict | src/dollos/mind/evolution_trigger.py:245-290 | Does the verdict's writes in order, however far the disk lets it; what they leave behind is `KilledCounter`, `KilledEdit`, `PassedSlot`, `FailedBelow`, `FailedOut` |
| EvolutionDaemon.Daemon.EvolutionPass | src/dollos/mind/evolution_keeper.py:204-337 | The same for the keeper pass, with the slot checked again behind the awaits |
| EvolutionDaemon.Daemon.Bookkeep | src/dollos/mind/evolution_trigger.py:347-363 | Mark and interval after a pass |
| EvolutionModel.PassResult | src/dollos/mind/evolution_keeper.py:204-315 | A candidate comes out of a pass only with the mechanical checks, no restatement of the persona texts, and a skeptic PASS |
| Runner.TurnRunner.Run | src/dollos/harness/runner.py:354-473 | On every exit: at most max_passes calls; each request a prefix of the next and of the conversation; the conversation only grew, by whole rounds (an assistant message and exactly the answers to its calls, in order); what it says, with a reply lost to a server error, is what was spoken and the blank pieces of finished replies, which were not; a failure rule ended the turn exactly at the first pass end where it held; the results begin with those the rules judged; it ended by its exit's exact condition on the last pass, by max_passes only after that many judged passes. The report is in if and only if it was before or an allowed Report of this turn ran without a failure; a turn that must report had none before its last pass, and a last pass that came to its end, not cut by max_tokens, ends the turn as reported exactly when the report is in; the turn is cut if and only if its last look at the interrupt found it up |
| Runner.TurnRunner.OnePass | src/dollos/harness/runner.py:376-418 | An interrupt seen at the boundary makes no further call; otherwise the next request is the whole conversation, the pass's results are added to the turn's, and its reply and the answers to its calls go into the conversation unless it met a server error |
| Runner.SaidVerbatim | src/dollos/harness/runner.py:499-512 | What was spoken is what the conversation says, to the letter, if and only if no piece of a finished reply was blank |
| Runner.TurnRunner.RunToolCalls | src/dollos/harness/runner.py:122-165 | One tool message per call with its id and its result's text, in order; the calls run in order until the interrupt is seen before one, the rest answer NOT_RUN and reach nothing; each that runs with arguments that parse reaches the executor once, with its tool and what that answers, and its result is the tool's own when it was allowed and a refusal of the decided kind otherwise; the report is in exactly when it was before or one of them reported |
| Runner.TurnRunner.StreamOnePass | src/dollos/harness/runner.py:475-565 | Every way a pass ends leaves a reply whose text is what was handed to speak; a finished reply keeps all its stream's calls, each answered, an unfinished one has none, and nothing runs; all calls run unless the pass is cut; it is cut if and only if its last look at the interrupt found it up; the error is the stream's |
| Runner.TurnRunner.PassEnd | src/dollos/harness/runner.py:393-467 | Each exit behind a pass with its exact condition, in order: error, interrupt, max_tokens, report, no tool calls, the failure rules; none of them only when the pass was judged and no rule holds |
| Runner.OneExit | src/dollos/harness/runner.py:393-467 | The conditions exclude each other |
| Runner.TurnRunner.Judge | src/dollos/harness/runner.py:436-463 | Which failure rule is reported when one holds |
| Runner.TellPass | src/dollos/harness/runner.py:393-410 | One pass appends at most one whole round, and keeps the conversation in agreement with what was said |
| MindTurn.TakeTurns | src/dollos/mind/context_builder.py:1-30 | Any number of turns on one key, each begun by BeginTurn and run by the tool loop: all requests made since the last new page, the turns' together, are the page's, and each begins with the one before |
| MindTurn.TakeTurn | src/dollos/mind/mind_loop.py:765-810 | One turn: the page is kept if and only if it is in memory with the same tools and system, below the token budget, and its last turn met no server error, and otherwise the reason is the first that holds; a kept page only grew and keeps its earlier requests first; its message tells the current snapshot; every call was decided by the page's taint and that of the calls before; the page is tainted behind it exactly when it was, or a call tainted the turn; it carries a server error exactly when the turn ended by one, and the tokens last reported |
| MindTurn.TakeTwo | src/dollos/mind/context_builder.py:142-179 | Two turns on one key: the second grows the first's page if and only if the page stays in memory, tools and system are the same, the first's tokens are below the budget and it did not end by a server error; otherwise it gets a fresh conversation, the next page of the first's when that is in memory |
| MindTurn.TakeTainted | src/dollos/mind/mind_loop.py:1488-1541 | Over two turns of hers or the owner's on one page: what a call of the first read narrows the second to Recall, NoteMemory and Report |
| Runner.Adapt | src/dollos/llm/chat_completions.py:55-158 | Any chunks give a reply verbatim, with exactly the assembled calls, none of them after max_tokens; fragments without the tool_calls reason are a server error |
| Reply.Reply.Feed | src/dollos/llm/chat_completions.py:55-90 | The accumulator holds the text and the call fragments of every chunk so far |
| Reply.Reply.FinishReply | src/dollos/llm/chat_completions.py:96-158 | Calls lowest index first, each with its first id and name and all its argument pieces; dropped and counted when the reply was cut |
| Reply.FirstWins | src/dollos/llm/chat_completions.py:79-89 | The first id that is not empty, and the first such name, are the call's, whatever fragments follow |
| Reply.CallsOfUnique | src/dollos/llm/chat_completions.py:79-99 | There is exactly one call list for a set of fragments |
| Reply.SwapFragments | src/dollos/llm/chat_completions.py:79-89 | Interleaving the fragments of different calls differently changes no call |
| Failures.Counters.Add | src/dollos/harness/runner.py:306-331 | The counters equal their definition on the whole history of results, pass by pass |
| Failures.Counters.SafeModeReason | src/dollos/harness/runner.py:336-342 | Trips exactly when three failures (refusals skipped) follow the last success |
| Failures.Counters.Stuck | src/dollos/harness/runner.py:333-334 | Finds a tool with three failures exactly when there is one |
| Failures.Counters.Refused | src/dollos/harness/runner.py:344-347 | Finds a tool refused in the limit of passes, refusals of one pass counted once |
| Failures.RunWithinStreak | src/dollos/harness/runner.py:323-342 | The same-tool rule never trips before the consecutive rule |
| Failures.StuckTurnBound | src/dollos/harness/runner.py:318-322 | While the stuck rule does not hold, n tools have failed at most 2n times since the last success |
| Executor.ToolExecutor.Run | src/dollos/harness/executor.py:238-303 | Over any sequence of calls: each is denied exactly when its tool was not offered, and allowed exactly when it was, is bound, and the turn was not tainted or is a stranger's or the tool is Recall, NoteMemory or Report; any other is refused as unbound; the turn is tainted exactly when its page was or an allowed call before asked for untrusted content, a stranger's never; an allowed call answers what its tool does, any other fails |
| Executor.SharedStaysClean | src/dollos/tools.py:209-239 | Behind a tainting read, and on a stranger's turn, no built-in call writes under shared/ (notes, diary, schedule summary, tool lessons); notes go to external_owner/ or external_public/ |
| Permissions.PrincipalOf | src/dollos/harness/permissions.py:54-75 | The lowest-trust author of the batch; internal without one |
| Permissions.StrangersTurn | src/dollos/harness/permissions.py:54-75 | A turn is a stranger's if and only if its batch has a channel message that is not the owner's own direct message; the owner's in a public channel is one |
| Permissions.OwnersTurn | src/dollos/harness/permissions.py:54-75 | Otherwise the owner's direct message decides, then the owner's own word; without an author the turn is internal |
| Permissions.PrincipalIgnoresOrder | src/dollos/harness/permissions.py:70-75 | The order of the batch does not matter |
| Permissions.PrincipalNeverRises | src/dollos/harness/permissions.py:70-75 | More inputs never raise the trust of a batch that has an author |
| Permissions.BoundWithinOffered | src/dollos/harness/turn_policy.py:311-361 | Every turn kind: bound tools are offered tools |
| Permissions.OfferedByTier | src/dollos/harness/turn_policy.py:337-361 | Offered tools depend on the origin tier alone |
| Permissions.BoundFallsWithTrust | src/dollos/harness/turn_policy.py:311-334 | With server rows closed upward, bound tools never grow as trust falls |
| Pages.Seen.EpochStart | src/dollos/mind/mind_prompt.py:183-260 | Opening a page tells the whole snapshot, unsent empty blocks read by default; a stranger's page holds only the profile and the mind state, no memory and no private event, and on the other tiers the page tells all five blocks |
| Pages.Seen.TurnDelta | src/dollos/mind/mind_prompt.py:263-332 | Behind every delta the page, last block per name, reproduces the current snapshot and safe mode; a block is resent exactly when the page told another text; shown hits were on no earlier message of the page; the recorded hits are those shown and the unparsed habits. The parts stand in the documented order; a stranger's are the profile, the mind state, safe mode and the messages alone, events are the private conversation's alone, and on the other tiers the page tells all five blocks |
| Pages.OpenAlike | src/dollos/mind/mind_prompt.py:110-181 | A stranger's page opens the same for any two states with the same emotion, energy, profile and safe mode, whatever reason, focus, agenda, loops, schedule and inner events are |
| Pages.TellAlike | src/dollos/mind/mind_prompt.py:263-332 | And it goes on the same, turn by turn, whatever memories, habits and events the turns bring |
| Pages.ToldApart | src/dollos/mind/mind_prompt.py:147-181 | On the other tiers two pages tell the same agenda, loops, schedule or profile if and only if the states agree on it (an empty profile reads as "(empty)", an empty schedule as "(none)") |
| Pages.DeltaTells | src/dollos/mind/mind_prompt.py:298-317 | Any delta brings any page up to the snapshot |
| Pages.HonestContext | src/dollos/mind/mind_prompt.py:83-89 | Provenance names only what the page shows, for every found list, if and only if every recorded habit that does not parse is shown otherwise |
| Pages.HeldBack | src/dollos/mind/mind_prompt.py:83-89 | A found memory or association that is new to the page, and neither shown by the message nor an unparsed habit, is named by provenance for no list; its list's cap held it back (a stranger's turn is given none) |
| Pages.NeverShown | src/dollos/mind/mind_prompt.py:322-329 | The failing family: any habit hit that does not parse is recorded without being shown, and named and withheld when found again |
| Conversations.ContextBuilder.BeginTurn | src/dollos/mind/context_builder.py:142-179 | The page is kept if and only if it is in memory, its tools and system are the given ones, its tokens are below the budget and its last call met no server error; otherwise the reason is the first of these that fails; a new page is clean and tells the whole snapshot; a kept conversation is the same; other conversations are untouched; the private one is never dropped |
| Conversations.ContextBuilder.Store | src/dollos/mind/context_builder.py:181-193 | In memory stay the max_channels channels used last |
| Recency.LruStep | src/dollos/mind/context_builder.py:181-193 | Dropping the oldest after every use keeps exactly the last n of the full order of use |
| Recency.RecentOrdered | src/dollos/mind/context_builder.py:181-193 | That order lists every channel used once, by the time of its last use |
| Chunker.SpeakReply | src/dollos/cascade/sentence_chunker.py:25-76 | Any reply in any deltas: cut pieces concatenate to the reply, no spoken piece is blank or holds more than one sentence, and all non-whitespace text is spoken in order |
| Chunker.SentenceChunker.Feed | src/dollos/cascade/sentence_chunker.py:25-68 | Pieces and buffer are the text; behind it the buffer is shorter than max_chars and holds no decided sentence end |
| Chunker.SentenceChunker.TakeSentences | src/dollos/cascade/sentence_chunker.py:25-57 | The scan for sentence ends cuts at every one whose next character has come |
| Chunker.SentenceChunker.ForceCuts | src/dollos/cascade/sentence_chunker.py:58-68 | Forced cuts end behind a space, or at max_chars when there is none |
| Chunker.SentenceChunker.Flush | src/dollos/cascade/sentence_chunker.py:70-76 | The tail goes out unless blank |
| Like.LikePrefix | src/dollos/memory/fts_store.py:144-146 | Against a general LIKE-with-ESCAPE matcher: the escaped prefix and % match exactly the sources that start with the prefix up to ASCII case, whatever %, _ and \ it holds |
| Like.ScopeExact | src/dollos/memory/fts_store.py:222-255 | A row is in scope exactly when it starts with the scope (a directory when asked with a trailing separator) and lies in no excluded directory |
| Like.DirectoryScope | src/dollos/memory/fts_store.py:222-240 | A scope asked for with a trailing separator is that directory, and a sibling whose name begins alike is out of it; without one it is any source that begins so, up to ASCII case |
| Markdown.SectionsLoseNothing | src/dollos/memory/fts_store.py:85-109 | The sections tile the lines: concatenated they are the file |
| Markdown.SectionsTile | src/dollos/memory/fts_store.py:94-109 | Every section is one heading, or the preamble, and the plain lines below it |
| Markdown.TwoPasses | src/dollos/memory/fts_store.py:94-109 | Collecting headings and cutting between them agrees with reading line by line |
| Markdown.ChunkMarkdown | src/dollos/memory/fts_store.py:85-123 | The chunks are those of the meaningful sections, in order |
| Markdown.ChunkSays | src/dollos/memory/fts_store.py:111-123 | Each chunk is the stripped text of its lines, with the title and level of the heading it starts with, or none in the preamble, and no other heading in it |
| Fts.FtsMemory.IndexFile | src/dollos/memory/fts_store.py:272-277 | Replaces the rows of one file |
| Fts.FtsMemory.ReindexAll | src/dollos/memory/fts_store.py:279-286 | Leaves each chunk once for every root that finds its file |
| Fts.IncrementalExact | src/dollos/memory/fts_store.py:272-286 | Indexing a written file leaves the index of a full reindex if and only if exactly one root finds it or it has nothing to index |
| Fts.EditsIndexed | src/dollos/memory/fts_store.py:272-286 | So does any run of writes and deletions of files that exactly one root finds, each indexed |
| Fts.DisjointEdits | src/dollos/memory/fts_store.py:272-286 | With roots that do not overlap: any run of writes and deletions of files that some root finds |
| Toml.StringRoundTrip | src/dollos/schedule.py:83-101 | Reading the written string by the rules of section "String" of TOML v1.0.0 gives the text back, whatever it holds |
| Toml.EscapeCons | src/dollos/schedule.py:88-99 | The five replacements and the control pass act on each character alone, in their order |
| Schedule.FileRoundTrip | src/dollos/schedule.py:37-101 | Loading a written schedule gives its entries to the second |
| Schedule.WholeSeconds | src/dollos/schedule.py:37-101 | The same entries if and only if every time is a whole second |
| Planning.EditMeans | src/dollos/tools.py:738-765 | The edited day is sorted and holds, at each time, the added entries over what was there without the removed ones; one entry a time stays one |
| Planning.ByTimeUnique | src/dollos/tools.py:758-762 | There is only one such list |
| Planning.RunWriteSchedule | src/dollos/tools.py:738-765 | Every outcome of the tool, for any reader of the file that reads written ones: the file is unchanged on each refusal and when nothing changed, and otherwise holds the edited day to the second, the day itself if and only if all its times are whole seconds |
| Planning.LoadScheduleReads | src/dollos/schedule.py:37-70 | The modelled reader is such a reader |
| Planning.HalfSecondCollides | src/dollos/tools.py:665-670 | Two added times within one second pass the check for one entry a time and are the same time in the file |
| Firing.ScheduleRunner.PollOnce | src/dollos/kernel.py:1104-1150 | The fired set and each poll's entries are those of the day's polls so far, also behind pruning and missing files |
| Firing.ScheduleRunner.DueEntries | src/dollos/schedule.py:104-127 | The loop takes the entries due and not fired |
| Firing.FiresExactly | src/dollos/kernel.py:1104-1150 | An entry fires at a poll if and only if that is the first poll within the minute behind its time that finds its time in the file |
| Firing.BetweenPollsFires | src/dollos/kernel.py:1104-1150 | With polls of one day at most a minute apart, every entry between the first and the last fires exactly once |
| Firing.FiresSometime | src/dollos/schedule.py:104-127 | Over any polls of a day: a time fires if and only if some poll in the minute behind it finds it |
| Supervisor.GoneAfterStop | src/dollos/service_supervisor.py:103-188 | For every interleaving of the stop with the loop's await points: when the stop has returned, the loop is over and every process ever forked is gone, except an aborted fork whose reap was cancelled and that has not exited yet; all are gone if and only if there is no such process |
| Supervisor.ReapCancelled | src/dollos/service_supervisor.py:103-116 | The exception is real: a fork that comes through behind the stop's call is killed, and the stop cancels the wait for it |
| Supervisor.LostMeans | src/dollos/service_supervisor.py:109-112 | Only a cancelled reap loses a process |
| Supervisor.OneAlive | src/dollos/service_supervisor.py:103-127 | At most one process is alive at any time, and it is the one on record |
| Supervisor.OverForGood | src/dollos/service_supervisor.py:118-163 | A loop that is over starts nothing more and gives up no second time |
| Supervisor.RestartBound | src/dollos/service_supervisor.py:118-163 | At most 6 + 5h starts, and forks, with h crashes behind a healthy uptime; giving up once, exactly at a streak of six; each delay is 2^(failures-1) seconds, never above 16 |
| Supervisor.RestartsExactly | src/dollos/service_supervisor.py:118-163 | Behind an exit or a failed exec: nothing more when stopping or after a clean exit, a restart behind the first five crashes of a streak, giving up behind the sixth |
| Supervisor.StopReturns | src/dollos/service_supervisor.py:171-188 | From every reachable state with a stop under way at most seven steps of it, of the loop's cancellation and of the awaited process's exit bring it to its return, and no other step taken in between makes them more |
| Supervisor.ServiceState.Crashed | src/dollos/service_supervisor.py:130-163 | The record behind a crash: counter, phase, delay, giving up |
| Supervisor.ServiceState.Spawned | src/dollos/service_supervisor.py:103-116 | The record behind a fork, and the fork that came too late |
| Attention.AttentionGate.Admit | src/dollos/mind/attention.py:138-201 | The gate decides by the message history alone, and its sessions are what the history says; a message on a channel is a call if and only if it is direct, mentions or names her, replies to her or is on an always-wake channel, and the first of these is the reason |
| Attention.AttentionGate.NoteReply | src/dollos/mind/attention.py:221-232 | A reply counts and shrinks the window, or ends the session |
| Attention.AttentionGate.WindowFor | src/dollos/mind/attention.py:234-263 | The wait: engaged for a DM, the owner or a session in its window |
| Attention.ContinuesMeans | src/dollos/mind/attention.py:180-201 | She goes on listening without a call if and only if: nothing behind the channel's last call ended the session, the author called her in it, she replied less than the limit since, and the gap since the last admitted message is below base*decay^replies |
| Attention.AliveMeans | src/dollos/mind/attention.py:180-192 | A session lives if and only if the channel had a call and no later event ended it (lazily: only a message can expire it) |
| Attention.ParticipantsMean | src/dollos/mind/attention.py:153-179 | Participants are those who called since the session opened, merged by every later call |
| Attention.DecisionsApart | src/dollos/mind/attention.py:138-201 | Other channels never matter |
| Bridge.AmbientLog.Append | src/dollos/discord_bridge/ambient_log.py:37-117 | Logs a message exactly when neither the file nor the cache knows it |
| Bridge.BridgeController.Capture | src/dollos/discord_bridge/controller.py:219-290 | What a capture under a guild and channel queues: a task exactly for a message that is not known, not her own and, with owner_guild_only, the owner's direct message or from a known guild, which is asked about first |
| Bridge.NeverHerOwn | src/dollos/discord_bridge/controller.py:238-262 | Over every run nothing of her own is forwarded, and with owner_guild_only no stranger's direct message |
| Bridge.BridgeController.BackfillOne | src/dollos/discord_bridge/controller.py:172-187 | A backfilled event is captured under the guild and channel it was fetched for; one that is known queues nothing |
| Bridge.BridgeController.Restart | src/dollos/discord_bridge/controller.py:168-217 | A new connection or process: nothing in flight survives, and nothing is forwarded again |
| Bridge.ForwardedOnce | src/dollos/discord_bridge/controller.py:219-290 | Over every interleaving, restart and backfill: a message whose timestamp fixes its date, and whose log file was not pruned, is forwarded at most once under a guild and channel, always behind its channel's registration on the same connection |
| Bridge.TwiceAfterPrune | src/dollos/discord_bridge/ambient_log.py:119-156 | Any wanted message older than a prune's cutoff can be forwarded a second time, by the next process |
| Inbound.BatchAccumulator.Add | src/dollos/ipc/batch_accumulator.py:26-35 | An item joins its channel's batch; only a new batch starts a timer, with its own window |
| Inbound.BatchAccumulator.Fire | src/dollos/ipc/batch_accumulator.py:37-48 | A timer flushes its channel's whole batch and nothing else |
| Inbound.BatchAccumulator.FlushAll | src/dollos/ipc/batch_accumulator.py:50-54 | Behind it nothing is pending and each channel's items were enqueued once, in order |
| Inbound.Inbox.OnChannelEvent | src/dollos/kernel.py:773-831 | Exactly the admitted messages join a batch, with the wait read before admission; an owner's message first waits for its preemption when that suspends |
| Inbound.Inbox.OnPreempted | src/dollos/kernel.py:939-963 | Behind the preemption the message joins its batch, with the wait read before |
| Inbound.Inbox.Shutdown | src/dollos/kernel.py:1337-1342 | For any interleaving of messages, preemptions, replies and timers the queue holds, channel by channel, exactly the admitted messages in order, but for one still behind its preemption, which is the channel's last |
| Inbound.QueuedInOrder | src/dollos/kernel.py:875-887 | Before that the queued messages of a channel are the first of the admitted ones |

## Left out

- Gates of the evolution trigger (idle time, interval, cooldown, enough material): the theorems hold for every schedule they allow, and more; only `EvolutionStray` states them, and not how many turns the reflection observer counts before a reflection.
- Corrupt or unreadable `pending.json` and its quarantine, torn writes, and a log read that fails.
- Outside edits fall between the daemon's await-free segments, not inside one.
- Offsets into the log count lines, not bytes; the attempt and error timestamps that only feed cooldowns are dropped.
- Prompt texts, `assemble_bundle`, `parse_keeper_report`, diary and pin counting, `compose` and `render_section`.
- Runner: `on_pass`, usage numbers, trace and log hooks are dropped.
- Chat streams with several choices a chunk or an error object inside the stream; usage and timing fields; MCP, HTTP and model I/O.
- Executor.SharedStaysClean: built-in tools' memory directories only; what Shell and SpawnWorkflow do on a turn without taint is unrestricted, and whether a call taints is an input.
- `moment_of`, `effective_kind` and the tool descriptions.
- Pages: block texts of agenda, loops and schedule are given, not rendered; hits are shown whole although the rendering clips them; a reader sees blocks, not characters.
- Conversations: tracing offsets and the one-off diary request; of a turn's tokens only the last reported usage counts.
- Markdown: which section bodies are meaningful is a parameter; `str.splitlines` and the title's regular expression outside one line are not modelled.
- Fts: tokenisation, ranking and LIMIT; symbolic links; a root is the set of files its scan finds.
- Schedule: of TOML only comments, empty lines, entry tables and their two string keys; of ISO times only HH:MM:SS when reading a file (RunWriteSchedule takes any reader that reads written files).
- Firing: a poll whose date and time fall on different days, and exceptions after some entries of a poll were pushed.
- Supervisor: an exec call is atomic under cancellation; `Process.wait` does not raise; signals, process groups and PR_SET_PDEATHSIG; the callback's exceptions.
- Attention: `_name_match` is an input, and message times need not be ordered.
- Bridge: events without a timestamp, unreadable or torn log files, the owner-in-guild cache's expiry (an answer is an input); a message captured right before a restart is logged and not forwarded.
- Inbound: a channel belongs to one connection, whose messages are handled one after another; what a preemption does, and its failure, the sink registry, and time itself (a timer may fire whenever it sleeps).
- Voice, EQ, scripts, control tools, the MCP connector, registry wrappers, output paging.
