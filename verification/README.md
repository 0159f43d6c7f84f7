# Takoserver scripts: a verified model

The scripts beside Takoserver spend money, mint credentials and gate releases. This project models the
logic behind eight of them and proves what they promise, in Dafny 4.11 (`dafny verify dfyconfig.toml`).

| files | what they model |
|---|---|
| `Values`, `Text`, `Patterns`, `Instants`, `Sorting` | JavaScript values, the fixed text grammars and their regular expressions, canonical instants (section 5.1 of RFC 3339), `sort()` |
| `Journal`, `JournalScript`, `JournalBytes`, `JournalCodec`, `Observation`, `JournalBinding`, `JournalRuns`, `JournalReports`, `JournalRequests` | the write-ahead journal of the billing business journey, from bytes to all interleavings of runs with kills and power failures, what a verify run reports, and what requests and records carry |
| `CredentialStatus`, `Credentials`, `TidyRemovals`, `CredentialEndings`, `AtomicWrite` | the credential-pair protocol, its signed status, how runs end, and its file operations |
| `Lexer`, `LiteralGrammar`, `Scanner`, `Spans`, `GateClaims`, `Gates` | the gate scanner of the native-evidence report, and a grammar of what it finds |
| `ConfigMerge`, `SeedRuns`, `Holders` | seeding held artifacts: merge, interleaved seeds, process scan |
| `DeployFlags`, `DeployOperands`, `DeployTerms`, `DeployAcceptance` | the deploy command's flag parser, what becomes of its operands, and the terms of each surface as a table |
| `ImportGraph`, `Layers` | reachability and the layering gate, with the repository's own table of layers |
| `Receipts` | the invoice projection and its parser |
| `PaidProbe` | the paid qualification run |

Runs that interleave are state machines: an `Action` is one step of one process or of its surroundings, `Act` says when it
is possible and what it leaves, and a `History` is any finite sequence of steps from the start. Loops over local variables
are methods proved against functions or predicates; the scanner and the directory are classes. What such a function or a
step computes is then said a second time without it, on the fields of the input, the answers or the source text themselves
(the members ending in `Exactly`, and the grammars and tables), and the two are proved to be the same.

Four things one would expect are not so in the code as it stands. Each has a concrete history or input, and the condition
under which it does hold:

- A live credential pair can lose its metadata when runs overlap on one directory, because files are removed by path: after
  it went live, or between the read-back of its metadata and its request (`Credentials.OverlapLosesMetadata`). A removal is
  tidy when the metadata it takes is the remover's own, or of an operation known to be absent: its run is not signing the
  request and has sent none, or signed statuses have shown it fenced and each key gone, or unregistered after its issue call
  had ended. While every removal is tidy nothing is lost (`TidyRemovals.TidyIsRecoverable`), and an untidy one loses the
  metadata of a pair that could be live in some history with the same steps and answers, differing only in what the
  authority did in between (`TidyRemovals.TidyIsExact`). Runs that never overlap are always tidy
  (`TidyRemovals.SoloIsTidy`), so their pairs can always be recovered (`Credentials.LivePairsAreRecoverable`).
- A completed seed's entries can be lost when two seeds share a configuration, although the comparison before the rename is
  there to prevent it. The lock is the control database's, which need not lie in the data root: seeds exclude each other
  exactly when they have one database, or each has its database inside the other's data root, where the process scan finds
  it open. Two seeds that do not exclude each other can lose entries, even on one data root
  (`SeedRuns.OverlapLosesEntries`); while any two do, none is lost (`SeedRuns.CompletedIsServed`).
- Masking makes a source one character longer when it ends with an escape inside an open quote
  (`Scanner.DanglingExample`), and exactly then (`Scanner.MaskLiterals`); a source not ending in a backslash keeps its
  length (`Scanner.MaskKeepsPlaces`).
- A `--protected-reference` on the key and identity surfaces is accepted and ignored
  (`DeployOperands.ProtectedReferenceIgnored`); every other flag of every accepted invocation, and that one on every other
  surface, is in the result (`DeployOperands.NothingDropped`).

What the models assume of their surroundings is stated where it is used: decoding undoes encoding and an encoded record has
no line break (`JournalBytes.Lawful`; section 7 of RFC 8259; a codec that keeps these laws is given in
`JournalCodec.SomeCodecIsLawful`), an authority request never takes effect after its call has
settled and the authority never unfences a pair (`Credentials.MayBecome`), a status it signs is true
(`Credentials.Truthful`), object creation is atomic and create-only, seeds see each other's open files in the process table,
and a power failure keeps what was flushed.

## Model

| member | source | states |
|---|---|---|
| Instants.OrderAgrees | scripts/hosted-billing-business-e2e.ts:105-112 | canonical instants compare as strings exactly as they compare in time, so the reader's string and `Date.parse` comparisons agree |
| Patterns.NamesMatch | scripts/hosted-billing-business-e2e.ts:145-168 | the tests of references, units and revisions accept exactly the language of their regular expressions, under a matching relation for patterns given as data |
| Patterns.MetersMatch | scripts/hosted-billing-business-e2e.ts:147-148 | so does that of meters, without two dots in a row |
| Patterns.QuantitiesMatch | scripts/hosted-billing-business-e2e.ts:151-155 | so does that of quantities: a canonical decimal and at most eighteen decimals, the last not zero |
| Patterns.InstantsMatch | scripts/hosted-billing-business-e2e.ts:105-112 | so does that of the shape of an instant |
| Patterns.DigestsMatch | scripts/hosted-billing-business-e2e.ts:28-30 | so do those of digests and commits, and of visible headers |
| Patterns.IdentifiersMatch | scripts/hosted-billing-service-receipts.ts:47-51 | so does that of Stripe identifiers, for every prefix |
| Journal.ReadRecords | scripts/hosted-billing-business-e2e.ts:329-456 | the reader's loop computes the recursive parse: header first, then one transition of (next, pending, organization, observation, events) per record, refusal final |
| Journal.RecordIsRead | scripts/hosted-billing-business-e2e.ts:353-454 | a record as the writer forms it is read as its event whenever the event is acceptable in the reader's state, and refused otherwise |
| Journal.ReadIsRecord | scripts/hosted-billing-business-e2e.ts:353-454 | conversely, every record the reader takes is exactly the writer's record of an acceptable event: no other key set, kind or field passes |
| Journal.HeaderIsRead | scripts/hosted-billing-business-e2e.ts:333-352 | a valid header record is read as the header |
| Journal.ReadHeader | scripts/hosted-billing-business-e2e.ts:333-352 | whatever is read as a header is the record of a valid header |
| Journal.ObservationExactly | scripts/hosted-billing-business-e2e.ts:389-437 | an observation is taken if and only if its fields are well formed, the snapshot lies in the period and not before the receipt, and the amount is positive and covered by a safe total; the comparison of the period's bounds as texts follows |
| JournalScript.ScriptAccepted | scripts/hosted-billing-business-e2e.ts:353-456 | every beginning of every legal journey is accepted, and leaves the reader in the state the journey says |
| JournalScript.AcceptedLanguage | scripts/hosted-billing-business-e2e.ts:329-456 | the reader accepts a list of records if and only if it is the record list of a beginning of some legal journey, and then returns its events |
| JournalScript.AcceptedShape | scripts/hosted-billing-business-e2e.ts:353-454 | in an accepted journal settled steps are a prefix of personal, usage, subscription, topup; each acknowledgement directly follows its one intent; only the last record may be an unacknowledged intent; at most one observation, right after the usage acknowledgement; one Organization in all later intents |
| JournalScript.TopupAckCompletes | scripts/hosted-billing-business-e2e.ts:522-537 | an accepted journal with a top-up acknowledgement is a complete journey |
| JournalBytes.WriteFully | scripts/hosted-billing-business-e2e.ts:258-267 | under every pattern of short writes the file grows by a prefix of the bytes, by all of them exactly when it succeeds |
| JournalBytes.JournalEvents | scripts/hosted-billing-business-e2e.ts:329-336 | trimming, splitting and decoding the raw text line by line gives the events of the recursive definition |
| JournalBytes.ReadContent | scripts/hosted-billing-business-e2e.ts:269-279 | reading back the bytes of any legal list of records gives the same events |
| JournalBytes.PrefixReads | scripts/hosted-billing-business-e2e.ts:329-336 | for every byte prefix of a journal: it is read exactly when it is non-empty and ends at a record boundary, and then as exactly the complete records |
| JournalBytes.BlanksIgnored | scripts/hosted-billing-business-e2e.ts:329-336 | blanks after the last record change nothing, as long as a line break comes last |
| JournalCodec.SomeCodecIsLawful | scripts/hosted-billing-business-e2e.ts:269-279 | there is a codec that keeps every law asked of one: decoding undoes encoding for every record, and no encoded record holds a line break |
| Observation.BuiltIsAccepted | scripts/hosted-billing-business-e2e.ts:707-763 | every observation built from a snapshot and receipt passes the reader's checks and the binding's checks for the same input and Organization, the safe-integer bound on the amount included |
| Observation.NeverObserved | scripts/hosted-billing-business-e2e.ts:734-748 | no observation is built for an amount above the safe integer range, or of zero |
| Observation.ObservedExactly | scripts/hosted-billing-business-e2e.ts:707-763 | an observation is built if and only if the receipt and the snapshot agree with the input on the Organization, the unit, the single workspace, the period and the amount, and then of these very fields |
| JournalBinding.BindJournal | scripts/hosted-billing-business-e2e.ts:458-519 | the loop over the events computes the binding: same header identity, every intent's body and every observation as the input says |
| JournalRequests.BoundTallies | scripts/hosted-billing-business-e2e.ts:458-519 | a legal journal is bound to a claim if and only if its header has the claim's digests, commit and origin, each intent carries that step's own part of the input, and its observation names the settled Organization and the input's reference, workspace and amount, over a period that spans the usage |
| JournalBinding.OwnJournalBinds | scripts/hosted-billing-business-e2e.ts:458-519 | at every record boundary of its own journey a claim is bound, to exactly the complete records and the Organization settled so far |
| JournalBinding.TopupAckSuffices | scripts/hosted-billing-business-e2e.ts:522-537 | a complete binding succeeds if and only if the binding does and holds the top-up acknowledgement: the other acknowledgements and the Organization follow |
| JournalRuns.StepKeeps | scripts/hosted-billing-business-e2e.ts:861-979 | the invariant of file, lock, requests and runs survives every step: writing any number of bytes, flushing, sending, answering, observing, renaming, killing, clearing a dead run's lock, losing power |
| JournalRuns.MutationsAreSafe | scripts/hosted-billing-business-e2e.ts:539-543 | in every history of any number of start and verify runs each mutation is sent at most once, in order, and only with its intent and all earlier acknowledgements on disk now and after any power failure |
| JournalRuns.JournalTellsRequests | scripts/hosted-billing-business-e2e.ts:821-835 | whatever of the journal is readable, now or after a power failure, names exactly the requests sent, except that a trailing intent may be unsent; no file means no request |
| JournalRuns.ObservationIsWhole | scripts/hosted-billing-business-e2e.ts:281-327 | in every history, whatever a power failure leaves of the journal is the records of a legal list and a piece without a line break, and there is no piece after a usage acknowledgement: the observation is there whole or not at all |
| JournalRequests.RequestsCarryInput | scripts/hosted-billing-business-e2e.ts:861-979 | in every history each request carries its own part of the input of the run that created the journal: usage the metered quantity, subscription exactly a reference and a plan, top-up exactly a reference and a positive amount, personal the empty object without an Organization; all others name one Organization |
| JournalRequests.JournalTallies | scripts/hosted-billing-business-e2e.ts:861-979 | in every history the readable journal opens with that run's digests, commit and origin, and its intents and observation say what its input says |
| JournalRequests.AckFollowsAnswer | scripts/hosted-billing-business-e2e.ts:821-842 | in every history an acknowledgement is begun only after the answer to the last request sent, which is of its own step, was accepted; a personal one names the Organization of that answer |
| JournalReports.ReportedOnce | scripts/hosted-billing-business-e2e.ts:1040-1048 | the report of a verify run is made in one step of its own and never changes |
| JournalReports.StaleOnlyByKill | scripts/hosted-billing-business-e2e.ts:539-543 | in every history a lock outlives its run only when the run was killed or the power failed |
| JournalReports.VerifyReports | scripts/hosted-billing-business-e2e.ts:1040-1048 | in every history, kills and power failures included: at the step of a verify run no start run is at work; without a journal it reports nothing and nothing was sent; with one, a claim is bound if and only if the file is exactly complete records that are what the claim says, and then to those records, the Organization they settle and the requests sent but for a trailing intent; the claim of the run that created the journal is bound if and only if the file ends with a line break |
| CredentialStatus.RenderedIsParsed | scripts/integration-e2e-credentials.ts:590-683 | every consistent status an authority renders is understood, unchanged |
| CredentialStatus.ParsedIsRendered | scripts/integration-e2e-credentials.ts:590-683 | an answer understood as a named state is exactly what an authority in that status renders for this operation, keys and provenance |
| CredentialStatus.RoleParsedIsRendered | scripts/integration-e2e-credentials.ts:685-741 | the same for one role, its times and lifetime included |
| CredentialStatus.ConsistentExactly | scripts/integration-e2e-credentials.ts:651-671 | the status invariants in terms of the states: exactly a registered pair has a fence and provenance, exactly a revoked one with nothing left is terminal, an unregistered one has no trace |
| CredentialStatus.TerminalIsTombstone | scripts/integration-e2e-credentials.ts:345-356 | the six-part test before a revoke is believed is the terminal flag alone |
| CredentialStatus.UnregisteredIsAbsent | scripts/integration-e2e-credentials.ts:449-455 | the three-part test for "no operation" is the state alone, and then no role is present |
| Credentials.StatusProves | scripts/integration-e2e-credentials.ts:437-479 | a truthful status that passes the first test means the authority knows nothing of the operation, the second that the pair is fenced with no key |
| Credentials.StepKeeps | scripts/integration-e2e-credentials.ts:178-290 | the invariant survives every step of every run, kill and power failure, with overlap, read-back and sending being separate steps; recoverability survives if the step removes no metadata of a pair that could be live |
| Credentials.RecoverableThroughout | scripts/integration-e2e-credentials.ts:929-969 | in any history, every pair that is or may become live, runs past their read-back counted, has its metadata durably on disk in every state, if and only if no step removes the metadata of such a pair |
| TidyRemovals.TidyIsRecoverable | scripts/integration-e2e-credentials.ts:219-226 | the same holds in every history whose steps only remove metadata of the remover's own operation or of one known to be absent from what the runs did and read |
| TidyRemovals.TidyIsExact | scripts/integration-e2e-credentials.ts:929-969 | a step meets that condition if and only if in every history with the same visible steps and answers it removes no metadata of a pair that could be live; while nothing is lost so far, if and only if in all of those it loses nothing |
| TidyRemovals.SoloIsTidy | scripts/integration-e2e-credentials.ts:178-290 | runs that do not overlap meet it at every step |
| Credentials.LivePairsAreRecoverable | scripts/integration-e2e-credentials.ts:219-223 | with runs that do not overlap: such a pair's metadata is durable, there is at most one, and after a power failure a revoke run finds exactly that operation |
| Credentials.FilesGoAfterProof | scripts/integration-e2e-credentials.ts:225-290 | in every history a local file disappears only by a run that sent nothing yet, or by one whose signed status showed no operation or a terminal revoke; that run's pair is dead from then on |
| Credentials.RequestsAreFew | scripts/integration-e2e-credentials.ts:482-498 | in every history a run sends at most one issue and two revokes, the second only in answer to a status that says the operation is being revoked |
| CredentialEndings.NeverAbandoned | scripts/integration-e2e-credentials.ts:225-290 | in every history a run past its read-back ends by itself only after removing its files under a proof of absence, on a lost status, or after a revoke whose status proves nothing; if that status says the revoke is under way, the revoke was asked for a second time |
| CredentialEndings.IssuedExactly | scripts/integration-e2e-credentials.ts:540-576 | a pair is taken as issued if and only if its status is active, without a legacy key and usable in both roles; the other parts of the test follow |
| CredentialEndings.ReceivedLive | scripts/integration-e2e-credentials.ts:225-228 | in every history a pair is received only while both its keys are live at the authority |
| CredentialEndings.RemovesAll | scripts/integration-e2e-credentials.ts:929-969 | the three removals take the writer's secret, the evidence secret and last the metadata; a file whose removal fails is left, and the others go |
| Credentials.HandedOverExactly | scripts/integration-e2e-credentials.ts:267-272 | in every history a run that returns a pair leaves its second secret and a flushed directory; its first secret and its metadata are there if and only if no step took them since the run began |
| Credentials.HandedOverComplete | scripts/integration-e2e-credentials.ts:267-272 | with runs that do not overlap: a run that returns a pair leaves all three of its own files, its metadata durable |
| Credentials.OverlapLosesMetadata | scripts/integration-e2e-credentials.ts:929-969 | two concrete histories of three overlapping runs that end with a live pair and no metadata: removed after the pair went live, and removed between read-back and request |
| AtomicWrite.Directory.PublishNoReplace | scripts/integration-e2e-credentials.ts:890-914 | every state it passes through is harmless; without a failure it publishes exactly when the destination is free; a link it does not keep is gone again unless two steps fail |
| AtomicWrite.Directory.Write | scripts/integration-e2e-credentials.ts:860-888 | with a failure or crash at any step, in every state passed through: an existing destination reads the same, one it made is complete and flushed, other names are untouched; success leaves it complete, no temporary name and the directory flushed; without a failure it succeeds exactly when the names are free; no temporary name of its own is left after a single failure |
| AtomicWrite.Directory.RemoveAll | scripts/integration-e2e-credentials.ts:929-969 | success means every path is gone and follows when nothing fails; no other name and no contents change |
| Lexer.LexOrdered | scripts/native-evidence.ts:587-675 | the non-empty literals lie in source order without overlap, at most one past the end |
| LiteralGrammar.LiteralsAreTexts | scripts/native-evidence.ts:587-675 | every source is covered, from its start, by pieces of code, comments, quoted texts, template texts and holes, where an odd run of backslashes escapes a character, a quoted text ends at its first unescaped quote or line break and a template text at its first unescaped backtick or hole; the literals are exactly the texts of that cover and what it leaves open at the end |
| Lexer.NoDangling | scripts/native-evidence.ts:591-606 | only a source ending in a backslash can end with an escape inside an open quote |
| Lexer.DanglingLiteral | scripts/native-evidence.ts:591-606 | a literal runs past the source if and only if it does |
| Scanner.SourceScanner.ScanQuoted | scripts/native-evidence.ts:591-606 | reads exactly one quoted literal of the reference machine, in whatever code it stands |
| Scanner.SourceScanner.ScanTemplate | scripts/native-evidence.ts:608-649 | reads exactly one template with everything nested in its holes, and moves forward |
| Scanner.SourceScanner.ScanHole | scripts/native-evidence.ts:623-646 | reads exactly the code of one hole, braces, quotes, templates and comments (with the slash read again) included |
| Scanner.SourceScanner.Scan | scripts/native-evidence.ts:651-675 | the index-jumping scanners end and emit exactly the literals, with contents, of the machine that reads step by step |
| Scanner.MaskLiterals | scripts/native-evidence.ts:678-686 | every character outside the literals and every line break stays, the rest is blanked; the length is kept unless the source dangles, then it is one more |
| Scanner.MaskKeepsPlaces | scripts/native-evidence.ts:678-686 | a source not ending in a backslash keeps its length and the place of everything outside its literals |
| Scanner.LiteralsInPlace | scripts/native-evidence.ts:587-675 | then every non-empty literal lies inside the source and its contents are the source's own characters |
| Scanner.DanglingExample | scripts/native-evidence.ts:596-601 | a quote and a backslash give a literal that ends past the source |
| Spans.CallArguments | scripts/native-evidence.ts:776-798 | the spans are argument lists of calls in the range, ordered and disjoint, each ending at its matching parenthesis or the end of the text; every call in the range has its span or stands inside one |
| Spans.MatchingParenthesis | scripts/native-evidence.ts:705-712 | the loop finds the matching parenthesis, or the end of an unbalanced text |
| Spans.ClosesOnce | scripts/native-evidence.ts:705-712 | an opening parenthesis has only one such end |
| Spans.SpansOnce | scripts/native-evidence.ts:776-798 | only one list of spans covers the calls of a range |
| Gates.ClassifyIsUnique | scripts/native-evidence.ts:800-815 | a gate gets a capability if and only if that is the only one it falls under: it names no other, or failing any its environment, and no environment but this one and its companions |
| Gates.NamedCapability | scripts/native-evidence.ts:800-815 | with distinct ids, a gate that names capabilities belongs to one if and only if it names that one alone and no environment but its own and its companions |
| GateClaims.EnvironmentReferences | scripts/native-evidence.ts:549-563 | the loop finds the name after every `process.env.`, in order |
| GateClaims.ReferencesExactly | scripts/native-evidence.ts:549-563 | a name is found if and only if it is the whole name after some occurrence of the prefix |
| GateClaims.ByStartSorts | scripts/native-evidence.ts:729-732 | the literals of a call's argument are taken in the order they start, none lost |
| GateClaims.ClaimsIn | scripts/native-evidence.ts:717-745 | the loops compute the claims of a span from its references and its capability calls |
| GateClaims.ClaimedExactly | scripts/native-evidence.ts:717-745 | these are exactly the names referred to, the first literal of each call, the environment of the table's first entry for it, and the second literal, the literals being taken by where they start; none twice |
| GateClaims.InitializerEnd | scripts/native-evidence.ts:762-769 | the loop ends at the first semicolon or line end outside brackets, or at the end of the text |
| GateClaims.DeclaredExactly | scripts/native-evidence.ts:758-761 | a binding is found at a place if and only if `const`, blanks, a name, blanks and an equals sign stand there, not inside a longer word, and then with that name and that place |
| GateClaims.DeclaredApart | scripts/native-evidence.ts:758-761 | no `const name =` starts inside another, so the search misses none |
| GateClaims.EnvironmentAliases | scripts/native-evidence.ts:753-773 | every bound name, and no other, is mapped to what the initializer of its last binding claims |
| GateClaims.ClaimsOfGate | scripts/native-evidence.ts:844-861 | the loops compute what a gate claims from its span and the bindings |
| GateClaims.GateClaimedExactly | scripts/native-evidence.ts:844-861 | that is exactly what its own span claims and what is claimed by the bindings of the whole words in it, none twice |
| GateClaims.ClaimedOnce | scripts/native-evidence.ts:717-745 | a span has exactly one set of claims |
| GateClaims.AliasesOnce | scripts/native-evidence.ts:753-773 | a text has exactly one map of bindings |
| Gates.CollectGates | scripts/native-evidence.ts:837-871 | one gate per `skipIf` call of each file, in order, with exactly its claims and classified by them |
| Gates.FileGatesOnce | scripts/native-evidence.ts:837-871 | a file has exactly one list of gates |
| Gates.CountsAddUp | scripts/native-evidence.ts:886-911 | the test counts of all capabilities and the unclassified gates add up to all gates |
| Gates.PassesWhenAllCounted | scripts/native-evidence.ts:963-970 | the exit code is 0 if and only if no capability is invalid and the counts cover every gate; each gate then belongs to exactly one capability |
| ConfigMerge.Merge | scripts/selfhost-artifact.ts:1177-1213 | the loops compute the merge, with its two refusals |
| ConfigMerge.MergeKeeps | scripts/selfhost-artifact.ts:1177-1208 | every existing entry keeps its place, object and grants in order; every requested entry is served with all its grants; artifacts stay unique; without widening the existing entries are exactly the old ones |
| ConfigMerge.MergeAddsNothingElse | scripts/selfhost-artifact.ts:1182-1208 | every entry and every grant was there or was requested |
| ConfigMerge.MergeIsIdempotent | scripts/selfhost-artifact.ts:1182-1208 | merging the same entries again changes nothing and is never refused, with or without the flag |
| ConfigMerge.NoGrantsWithoutFlag | scripts/selfhost-artifact.ts:1209-1213 | without the flag no existing entry changes, and the result is the one with the flag |
| ConfigMerge.WhenRefused | scripts/selfhost-artifact.ts:1182-1213 | for every two lists the merge is refused if and only if a requested artifact is already held, or requested before, as another object, or (without the flag) a requested grant is missing from the first entry of its artifact |
| SeedRuns.StepKeeps | scripts/selfhost-artifact.ts:391-402 | the invariant survives every step and every kill, on any number of roots and databases: the seeds at work are exactly the holders of their databases' locks, objects stay, and the configuration names only what is held |
| SeedRuns.HeldBeforeNamed | scripts/selfhost-artifact.ts:508-543 | in every history no object is changed or removed, every new one has the digest that names it, and every entry the configuration gained was requested by a seed under whose data root its object is held; all files of a completed seed are held |
| SeedRuns.PreparedExactly | scripts/selfhost-artifact.ts:1147-1213 | a merge is refused if and only if another target is asked for than the block's, or its entries are refused; it changes its own block only, which keeps its target, or gets the one given, or the default |
| SeedRuns.TargetsStay | scripts/selfhost-artifact.ts:1147-1258 | in every history every block of the first configuration stays, under its target; while any two seeds exclude each other so do the blocks added later |
| SeedRuns.PublishedAsCompared | scripts/selfhost-artifact.ts:1240-1258 | in every history, however seeds are placed, what a seed publishes is the merge of its job into the configuration at its comparison, and so into the one it replaces unless another seed published between the two |
| SeedRuns.CompletedIsServed | scripts/selfhost-artifact.ts:685-772 | while any two seeds have one control database, or each its database inside the other's data root, the entries of a completed seed with all their grants are served ever after, locking, listing the processes and looking at each of them being separate steps |
| SeedRuns.OverlapLosesEntries | scripts/selfhost-artifact.ts:1240-1258 | for any two data roots and databases that are not so placed, equal roots included, there is a history in which a completed seed's entries are lost |
| Holders.ExamineProcess | scripts/selfhost-artifact.ts:853-893 | the verdict on one look: a holder by its first matching descriptor, unreadable only for this user's live process, else cleared |
| Holders.HeldExactly | scripts/selfhost-artifact.ts:853-893 | a process with a readable table holds the root if and only if some link points at the root, below it or at one of the files, a deleted file counting under its old name; it is reported with such a path |
| Holders.DataRootHolders | scripts/selfhost-artifact.ts:808-846 | for every evolution of the process table: who is unreadable, who holds, and who was looked at in which round, exactly |
| Holders.EveryProcessSettled | scripts/selfhost-artifact.ts:793-807 | every other process ends in exactly one class by its last look: holder, hidden at every look, or cleared; it is looked at at most once a round |
| Sorting.SortForgetsOrder | scripts/deploy.ts:1194-1215 | `sort()` gives one result for every order of the same strings |
| DeployFlags.ParseInvocation | scripts/deploy.ts:421-1243 | the loop over the flags and the chain of gates compute the specified parse |
| DeployAcceptance.AcceptedExactly | scripts/deploy.ts:749-1243 | a command line is accepted if and only if no flag is malformed or given twice, at most one is a predecessor and one a runtime flag, and it meets its surface's terms: a table of the environments, actions, required and allowed operands, counts and delta of every surface |
| DeployAcceptance.SurfaceAccepted | scripts/deploy.ts:749-1243 | the same for what the flags left behind, surface by surface |
| DeployFlags.TakeCommutes | scripts/deploy.ts:465-749 | any two flags may be taken in either order: refusals are mutual, drafts differ only in the order of lists |
| DeployFlags.ParseForgetsOrder | scripts/deploy.ts:421-1243 | the result, refusals included, is the same for every permutation of the flags |
| DeployFlags.FlagsTaken | scripts/deploy.ts:465-749 | the flags are taken if and only if none is malformed and no two refuse each other; then every slot holds its flag's value and every list its names in order |
| DeployFlags.DeltaAccepted | scripts/deploy.ts:1005-1024 | an accepted closure delta lists exactly the names given, each list sorted, at most 32, none twice, only on a surface that publishes a Worker |
| DeployOperands.NothingDropped | scripts/deploy.ts:748-1243 | whatever the surface, an accepted invocation carries every operand given, slot, name or scope, if and only if it is not a protected reference on a key or identity surface |
| DeployOperands.ProtectedReferenceIgnored | scripts/deploy.ts:894-937 | a concrete key-surface invocation that is accepted with a protected reference and carries none |
| DeployOperands.EnvironmentFenced | scripts/deploy.ts:779-1095 | an accepted command line of an integration-only or rehearsal-only surface has the flag of its environment, production fresh init that of production; one with a storage rebind and a delta is of one of three surfaces and for integration |
| DeployOperands.ActionFenced | scripts/deploy.ts:894-1085 | an accepted command line with the action mint, issue, revoke or apply is of a surface it belongs to, a revoke of a key with its key id |
| DeployOperands.OperandFenced | scripts/deploy.ts:826-1180 | an accepted invocation carries a generation exactly on the two storage surfaces; a reversal, the verifier bridge and live adoption are carried only on theirs, with the action flags and companions they need |
| ImportGraph.ReachableFrom | scripts/check-imports.ts:1709-1719 | the worklist ends on every finite graph and returns exactly the existing files reached from the entries through existing files |
| ImportGraph.CheckLayers | scripts/check-imports.ts:1119-1297 | no violation if and only if every module and import is classified and allowed; each kind of violation is reported exactly where it occurs |
| ImportGraph.LayersAreClosed | scripts/check-imports.ts:36-50 | in a graph that passes, a set of layers closed under `may` in which no excepted edge starts is closed under transitive import |
| Layers.EdgesStartOutside | scripts/check-imports.ts:833-1297 | none of the reviewed exact imports starts at a path that a pattern of the core or of release data matches |
| Layers.CoreIsClosed | scripts/check-imports.ts:58-831 | a path classified as core or release data may import only these layers, and no reviewed edge starts at it |
| Layers.CoreReachesCore | scripts/check-imports.ts:58-831 | in every module graph that passes, all that is reached from a core module is core or release data |
| Receipts.ProjectionAgrees | scripts/hosted-billing-service-receipts-collect.ts:101-221 | for every invoice event the projection accepts, parsing the projection succeeds and agrees with parsing the original on kind, subscription, customer and every pinned metadata key |
| Receipts.ParsedExactly | scripts/hosted-billing-service-receipts.ts:69-146 | an event is parsed to a snapshot if and only if its own fields say so: modern exactly for the modern version, with subscription and metadata under the parent and amounts, times and aliases in order; else a legacy paid invoice of an older version with them at the top; customer and subscription identities of their kinds |
| Receipts.ProjectedExactly | scripts/hosted-billing-service-receipts-collect.ts:101-221 | an invoice event is projected if and only if it is this event, in test mode, of no connected account, can be parsed, and has none of the kept fields missing |
| Receipts.ProjectionKeepsOnly | scripts/hosted-billing-service-receipts-collect.ts:125-221 | the projection has exactly the listed fields of the event, the invoice, its parent and the pinned metadata, with their own values, an alias exactly when it is there |
| Receipts.TermsExactly | scripts/hosted-billing-service-receipts.ts:405-421 | an event matches the terms if and only if its own fields name their subscription, customer, Organization, plan and revision, and a modern one their checkout intent |
| Receipts.CollectedExactly | scripts/hosted-billing-service-receipts-collect.ts:86-99 | a row is accepted if and only if it is of this event and invoice, applied, of the event's time, and settled no earlier than received |
| Receipts.ProjectionAgreesThroughFile | scripts/hosted-billing-service-receipts.ts:69-146 | so does parsing it after it was written to the evidence file and read back, undefined fields dropped |
| Receipts.CollectedIsVerified | scripts/hosted-billing-service-receipts-collect.ts:86-99 | the invoice evidence the collector accepts and writes is accepted by the verifier after the file, if and only if it passes what only the verifier asks: Stripe identities, exactly the nine columns, an event time in the fixed format |
| Receipts.TermsThroughFile | scripts/hosted-billing-service-receipts.ts:405-421 | the comparison with the subscription's own records has the same outcome before the file and after it |
| PaidProbe.ReadResponseBody | scripts/ai-live-qualification.ts:791-836 | the body is the exact concatenation of its chunks within the bound; a foreign or oversized chunk is malformed, or a timeout when cancelling the stream outlasts the timer; a broken stream is a network loss |
| PaidProbe.Join | scripts/ai-live-qualification.ts:815-821 | copying the chunks into one buffer gives their concatenation |
| PaidProbe.EqualBytes | scripts/ai-live-qualification.ts:1032-1038 | true exactly for equal bytes |
| PaidProbe.ParseCompletion | scripts/ai-live-qualification.ts:893-931 | a completion is accepted exactly as specified, and never billed above the maximum |
| PaidProbe.CompletedExactly | scripts/ai-live-qualification.ts:893-964 | what counts as a completion, on the answer's own status, body, headers and JSON fields: the model, a spoken choice, tokens that add up, and a bill within the maximum |
| PaidProbe.ClearFirst | scripts/ai-live-qualification.ts:184-262 | the three questions before any money moves: what they ask, what they clear, and which refusal is told |
| PaidProbe.ClearedExactly | scripts/ai-live-qualification.ts:838-891 | they clear a maximum if and only if the server is the one asked for, lists the model just once under the asked revision with that maximum within the budget, and the Organization's wallet in dollars holds it |
| PaidProbe.Qualify | scripts/ai-live-qualification.ts:152-400 | against any answers: discovery, models, wallet, then the paid request with the caller's model, key and revision, and the same request word for word again; the first is sent if and only if the three answers clear it, the second if and only if the first brought a completion; `passed` if and only if both brought the same completion, `unknown` if and only if a paid request was lost; the reasons for the budget, the wallet, a timeout, a lost connection and an HTTP status if and only if these occurred |

## Left out

- HTTP, TLS, signing, Stripe, Cloudflare and the database: an answer is any value, or none.
- SHA-256 and JSON text: functions given to the model, with the laws named above; the order of an object's keys is not part of a value, so comparisons of `JSON.stringify` texts are comparisons of values.
- File ownership, modes, symlinks and path canonicality: checks with no deeper property.
- Instants.OrderAgrees: covers the years 0000 to 9999, the only ones the fixed format can spell.
- JournalBytes.PrefixReads: `trimEnd` is modelled on the ASCII blanks; encoded records hold no others at their end.
- JournalRuns.StepKeeps: the temporary file of the observation and the Checkout handoff files are not tracked, and an operator removes a lock only of a dead run.
- `runVerify` after the binding: usage paging, pricing tables and provider comparisons, response matching with no state of its own.
- Credentials.StepKeeps: operation ids are fresh by assumption; the metadata document is its operation id, and the two secrets are tracked by the operation that wrote them.
- CredentialEndings.IssuedExactly: the status in the answer; the secrets' own format and difference are left out.
- AtomicWrite.Directory.Write: one process works in the directory; concurrent removal is in `Credentials`.
- Scanner.SourceScanner.Scan: offsets count characters, where JavaScript counts UTF-16 units; no rule of the scanner looks at a character outside ASCII.
- Gates.CollectGates: the walk of the test tree and the file counts are left out.
- SeedRuns.CompletedIsServed: a process is looked at once, all its open files at that moment; a seed that another cannot see in the process table (another PID namespace) is covered only by the database's lock.
- SeedRuns.StepKeeps: reading the source tree, media types and Form validation come before the first step; edits of the configuration by hand and the size limit of its text are left out.
- DeployAcceptance.AcceptedExactly: actions, environments, lineages and migrations are words the flags can be read as; any other argument is malformed and refused before.
- DeployFlags.ParseInvocation: one argument's own reading (prefix, pattern, surface name) is the flag it denotes; `dispatch` and the surfaces are left out.
- Layers.CoreReachesCore: the patterns of the core and of release data are written out, those of the other layers are a function given to the model; the exact text each reviewed import must have is left out, so more of them are allowed; files that are not walked (declarations, JSON) count as importing nothing.
- The other sections of `scripts/check-imports.ts` (bundle hygiene, forbidden packages): uses of reachability with fixed lists.
- Receipts.CollectedIsVerified: only the invoice part; the top-up part and the subscription and command records are equality checks of the same kind, and the linking of the evidence files is left out.
- PaidProbe.Qualify: normalizing the options and reading the key file come before the first step.
- Generators, builders, pin checks, migrations, release notes, the test runner, console, site and smoke tests: easy members or no algorithm.
