# AgentCloud: a verified model of its languages and stores

This Dafny project models four parts of AgentCloud and proves what they are for.

* **AgentFile** (`agentfile/`): the lexer with its escapes and heredocs, the recursive-descent parser with five
  precedence levels, the serializer that prints no parentheses, the layer merge, and the resolution of CONFIG values.
* **Agent workbench** (`agent_workbench_repo*.go`): an append-only event log per session with optimistic revisions,
  source deduplication and command receipts.
* **Plan and apply, worker launches** (`orchestration_apply_*.go`, `orchestration_worker_launch_*.go`): single-use plans
  over a compare-and-swap resource head with a revision chain, and a lease with a fencing token.
* **Expert market** (`expert_market_*.go`): the cached pointer to the latest published release.

Each part has the same layers. A *specification* module gives the data and what every operation computes, as functions.
An *imperative* module has the classes and loops of the program, each method proved against its function: `Lexer`,
`Parser`, `Serializer`, `Merger`, `Resolve.Resolver`, `WorkbenchRepo`, `ApplyRepo`, `WorkerLaunchRepo`, `MarketRepo`.
The remaining modules prove the laws: over all inputs for the language, over all runs for the stores. A `Play` method
in each run module shows that calling the repository goes through exactly those runs.
The modules called `...Answers` say of every call, in every reachable state, which answer it gets, errors included, and what
it writes, field by field and without the functions that compute it.

## Reading the AgentFile results

`serialize.go:14-16` promises that parsing the serialized text gives an equivalent tree. That does not hold of every
tree, and the project says of which it does.

* `LexDecls.PrintableProgram` asks that names printed bare lex as names, that heredocs are last on their line and do
  not end in a newline, and that values have a literal. The lemmas called `...SurvivesExactly` in `Literals` show that
  each of the conditions on names, texts and heredocs is necessary as well as sufficient for that piece of text.
* `Levels.ProgramRespects` asks that operands bind tighter than their operator. For a printable program this is
  exactly the condition: `NormalForm.SurvivesExactly` is an if-and-only-if. `NormalForm.LooseGroupIsLost` and
  `NormalForm.NegatedGroupIsLost` say which tree comes back instead.
* `Closure.Ungrouped` and `Closure.Plain` describe the inputs whose trees are in that form to begin with:
  `CloseDecls.ParseRespects`, `CloseDecls.ParsePrintable`, `NormalForm.ParseSerializeParse`.
* Of all other input, `Conservation` says that an error-free parse of an expression or a statement neither loses nor makes up
  a word, and `Grouping.GroupedInverts` that parentheses make every tree expressible.

Trees are compared without source positions. Errors are recorded by kind and token, not by message text.

## Where the code and its documentation differ

* The round trip of `serialize.go:14-16` holds under the conditions above only.
* The comment at `serialize_expr.go:126-130` says that a hyphen is never part of an identifier; the lexer accepts one
  before a letter (`lexer_readers.go:83-90`). Printing is unaffected, since names with hyphens are quoted.
* The header of `merge.go` says that REMOVE is collected and applied after evaluation; the code also deletes the key
  at once (`merge.go:59-66`), and the model does both.
* The header of `merge.go` says that merging can be applied recursively. Grouping the layers differently gives the same
  result if and only if the first layer passes the check `MergeExact.Groups`, which every layer without a key twice and
  without a late REMOVE does (`MergeExact.ComposableGroups`); `MergeCompose.LateRemoveDoesNotCompose` is a case outside it.
* Running a consumed plan again (`orchestration_apply_authorization.go:111-117`) answers with a corruption error as soon as
  the resource has moved on to a later revision: `ApplyChain.RerunAnswers`, `ApplyChain.OvertakenPlanIsCorrupt`.
* Any actor of the organization may claim a launch, but only the launch's own actor can use the claim
  (`orchestration_worker_launch_release.go:51-67`): `WorkerLaunchRuns.ClaimThenRelease`.

## Model

| member | source | states |
|---|---|---|
| RoundTrip.ParseOfSerialize | agentfile/serialize/serialize.go:14-38 | Serializing a printable, level-respecting program and parsing the text gives exactly the program, without errors, nested blocks, heredocs and file modes included |
| RoundTrip.SerializeIsInjective | agentfile/serialize/serialize.go:17-38 | Two programs of the normal form with the same text are equal |
| FrontEnd.SerializeThenParse | agentfile/serialize/serialize.go:14-38 | Running the serializer and then the lexer and parser gives back a printable program, without errors, if and only if it respects the precedence levels |
| FrontEnd.Reformat | agentfile/parser/parser.go:18-48 | Running parse, serialize and parse again on input without groups and lossy spellings ends with the program of the first parse |
| NormalForm.SurvivesExactly | agentfile/serialize/serialize_expr.go:47-51 | A printable program survives the round trip if and only if its expressions respect the precedence levels |
| NormalForm.ParseSerializeParse | agentfile/parser/parser.go:18-48 | For input without grouping parentheses, misplaced heredocs, quoted keys or lossy spellings, parsing the serialized parse gives the first parse again |
| NormalForm.LooseGroupIsLost | agentfile/serialize/serialize_expr.go:47-51 | The tree of a group that binds looser than its context always comes back regrouped to the right |
| NormalForm.NegatedGroupIsLost | agentfile/serialize/serialize_expr.go:28-29 | The negation of a binary expression always comes back as a negated left operand |
| NormalForm.PrintedIsUngrouped | agentfile/serialize/serialize_expr.go:11-86 | No printed program has a grouping parenthesis, whatever tree it comes from |
| NormalForm.ParserReachesTheEnd | agentfile/parser/parser.go:25-48 | On every token stream the parser terminates at the end of input |
| LexDecls.LexProgram | agentfile/lexer/lexer.go:28-101 | The text of a printable program lexes into exactly the tokens of its tree and one EOF |
| LexPrinted.LexExpr | agentfile/serialize/serialize_expr.go:11-86 | A printed expression lexes into its tokens whatever permitted text follows |
| LexFacts.LexIsLexed | agentfile/lexer/lexer.go:28-101 | Every text lexes into well-formed tokens with one EOF, at the very end |
| LexFacts.IdentIsName | agentfile/lexer/lexer_readers.go:77-98 | Every identifier token is a single non-keyword word, so nothing else can be printed bare and read back |
| LexLaws.IdentIsMaximal | agentfile/lexer/lexer_readers.go:77-98 | An identifier takes letters, digits, underscores, and hyphens that a letter or underscore follows, and all of them |
| LexLaws.CommentIsOneToken | agentfile/lexer/lexer.go:28-101 | A comment reaches to the end of its line and is one token |
| LexLaws.UnclosedIsIllegal | agentfile/lexer/lexer_readers.go:20-61 | A string that is never closed takes the rest of the text and is illegal |
| LexLaws.UnclosedHeredocIsIllegal | agentfile/lexer/lexer_readers.go:101-166 | A heredoc whose marker never comes back takes the rest of the text and is illegal |
| Lexer.Tokenize | agentfile/lexer/lexer.go:17-101 | The tokenizing loop never leaves the text and produces the specified token list |
| ParsePrinted.LevelInverts | agentfile/parser/parser_expr.go:9-113 | At every level, parsing the tokens of a level-respecting expression returns it and leaves exactly the rest |
| ParsePrinted.ExprInverts | agentfile/parser/parser_expr.go:9-44 | After a left operand the fold of its level goes on from it with exactly the remaining tokens |
| Grouping.GroupedInverts | agentfile/parser/parser_expr.go:54-167 | Parentheses make every tree expressible: with a group around every operand, quoted keys, trailing commas and newlines, any expression is read back as a primary one, whatever its levels and whatever follows |
| Conservation.ExprKeeps | agentfile/parser/parser_expr.go:9-167 | An expression that is read without error has exactly the names, texts, numbers and operators it was read from, in order, and all parentheses and braces close |
| Conservation.StatementKept | agentfile/parser/parser_stmt.go:6-124 | The same for every statement with its blocks |
| Spellings.SkillsRead | agentfile/parser/parser_decl.go:200-213 | Slugs may be quoted, and separated by commas or by spaces |
| Spellings.JunkIsReported | agentfile/parser/parser.go:25-48 | A token that begins neither a declaration nor a statement is reported, at the top and in a block |
| ParseStmts.ArgListInverts | agentfile/parser/parser_stmt.go:29-41 | Arguments separated by spaces only are read back one by one |
| ParseStmts.ModeReadsBack | agentfile/parser/parser.go:114-134 | A file mode printed in octal is read back as the same number by the leading-zero rule |
| ParseStmts.StmtInverts | agentfile/parser/parser_stmt.go:6-124 | Every printable statement, blocks included, is read back from its tokens |
| ParseDecls.DeclInverts | agentfile/parser/parser_decl.go:6-48 | Every printable declaration is read back from its tokens and nothing more is taken |
| ParseDecls.JoinPieces | agentfile/parser/parser_decl_extra.go:123-154 | A control capability split at its commas joins back to the same list |
| Closure.LevelCloses | agentfile/parser/parser_expr.go:9-113 | Without grouping parentheses an error-free parse at a level returns a level-respecting tree of that level |
| CloseStmts.StatementsClose | agentfile/parser/parser_stmt.go:103-124 | The same for statement lists: each parsed statement respects the levels and is printable |
| CloseDecls.ParseRespects | agentfile/parser/parser.go:25-48 | Any ungrouped token stream that parses without error yields a level-respecting program |
| CloseDecls.ParsePrintable | agentfile/parser/parser.go:25-48 | On plain lexed tokens the parsed program is printable as far as its declarations are restorable |
| Parser.Parser.ParseProgram | agentfile/parser/parser.go:25-48 | The top-level loop computes the specified program from the current tokens |
| Parser.Parser.ParseOr | agentfile/parser/parser_expr.go:9-16 | The loop over one operator is the left fold of its level |
| Parser.Parser.ParseBlock | agentfile/parser/parser_stmt.go:103-124 | A block is read as specified, skipping tokens that start no statement with an error |
| Serializer.Serialize | agentfile/serialize/serialize.go:17-38 | Writing separators between items and one final newline gives the same text as ending every item with a newline |
| Serializer.WriteBlock | agentfile/serialize/serialize_stmt.go:67-75 | The block writer appends the specified indented text and nothing else |
| Serializer.ChooseHeredocMarker | agentfile/serialize/serialize_expr.go:136-150 | Terminates on every content with a marker that does not occur in it |
| Serializer.QuoteString | agentfile/serialize/serialize_expr.go:90-109 | The character loop is the one-pass escape |
| PrintSpec.NumberedMarkersRunOut | agentfile/serialize/serialize_expr.go:144-149 | No content of n characters contains the marker numbered ten to the n, so the fallback loop ends |
| PrintSpec.MarkerIsFirst | agentfile/serialize/serialize_expr.go:132-150 | The marker is the first of the five candidates that does not occur in the content |
| LexWords.ReadEscaped | agentfile/lexer/lexer_readers.go:20-61 | Reading an escaped string followed by any text returns the string and stops after its closing quote |
| LexWords.LexHeredoc | agentfile/lexer/lexer_readers.go:101-166 | A printed heredoc gives back its content without trailing newlines, and the newline after it is swallowed |
| Literals.HeredocSurvivesExactly | agentfile/lexer/lexer_readers.go:161-165 | A heredoc comes back if and only if its content has no trailing newline |
| Literals.PromptSurvivesExactly | agentfile/serialize/serialize.go:75-76 | A PROMPT text survives `%q` and the lexer if and only if it is printable characters, newlines and tabs |
| Literals.NameSurvivesExactly | agentfile/serialize/serialize_expr.go:113-123 | A name printed by quoteIfNeeded comes back if and only if it is quoted or lexes as a name: bare keywords and digits do not |
| Literals.KeySurvivesExactly | agentfile/serialize/serialize_expr.go:61-70 | A key or slug printed bare comes back if and only if it is a name |
| Literals.FormattersAgree | agentfile/format.go:33-39 | The four ReplaceAll passes equal the one-pass escape on every string |
| Literals.LiteralsAreExact | agentfile/format.go:8-32 | A text is a literal body of the grammar if and only if it is the escape of the value it is read as |
| Merge.MergeIsOverride | agentfile/merge/merge.go:19-133 | All copies of a key in the merged list are the one declaration of the override map, and no key of the map is missing |
| MergeLaws.MergeOneMore | agentfile/merge/merge.go:56-123 | One declaration more in a layer: what a REMOVE hits is gone, SKILLS and KNOWLEDGE unite, an untyped CONFIG changes the default only, any other declaration replaces its key, and no other key changes |
| MergeLaws.KeysMeetExactly | agentfile/merge/merge.go:135-180 | Two declarations meet under one key if and only if they are of one kind and one name, REMOVEs if and only if they are equal |
| MergeLaws.RemoveHitsExactly | agentfile/merge/merge.go:59-66 | A REMOVE deletes exactly the ENV or CONFIG of its name, or, without a name, the SKILLS |
| MergeLaws.SkillsAccumulate | agentfile/merge/merge.go:67-84 | A layer that does not remove the SKILLS leaves exactly the skills of the base and of its own, the base's first |
| MergeLaws.MergeKeepsOrder | agentfile/merge/merge.go:124-133 | Without a REMOVE the merged list has every key once, where it came first in base and layer |
| MergeLaws.RemoveGoesLast | agentfile/merge/merge.go:59-66 | A REMOVE goes to the end of the merged list, and what it deletes leaves its places |
| Merger.IndexedDecls.ApplySlice | agentfile/merge/merge.go:56-123 | The in-place index after a slice is the specified one, order and entries |
| Merger.MergeMounts | agentfile/merge/merge.go:202-217 | The position table yields the base's slugs and then the new ones once each, and every slug has the slice's last mode for it or else the base's |
| Merger.MergeSlugs | agentfile/merge/merge.go:219-231 | The union is the base's slugs and then exactly those of the slice that the base does not have, in their order |
| MergeExact.LayersComposeExactly | agentfile/merge/merge.go:16-19 | Two layers may be merged with each other first, for every base and every second layer, if and only if the first one, applied to nothing, makes what its last declarations say, and its normal form has no REMOVE after what it deletes |
| MergeCompose.LayersCompose | agentfile/merge/merge.go:16-19 | Merging two layers first and then over any base gives the same override map and statements as merging them one after the other, for composable first layers |
| MergeCompose.NormalFormOverrides | agentfile/merge/merge.go:56-133 | A layer applied to nothing and written out again overrides every map as the layer itself does |
| MergeCompose.CombineAssociates | agentfile/merge/merge.go:67-119 | Overriding twice is overriding once by the combination, for replacement, unions and untyped CONFIGs alike |
| MergeCompose.LateRemoveDoesNotCompose | agentfile/merge/merge.go:59-66 | A REMOVE after its declaration in the first layer makes the two groupings differ |
| Resolve.Resolver.ResolveConfigValues | agentfile/resolve/resolve.go:30-74 | Defaults are rewritten in place by priority, and every undeclared system override is appended once |
| Resolve.PriorityHolds | agentfile/resolve/resolve.go:21-74 | After merge and resolution each CONFIG has the first defined of system override, layer value, preference and base default and is otherwise unchanged; every override nobody declares is added once, with the type of its value |
| Resolve.TypeIsKept | agentfile/merge/merge.go:99-112 | Type and options stay the base's when the layer gives no type and does not remove the CONFIG |
| WorkbenchRepo.Repository.Append | backend/internal/infra/agent_workbench_repo.go:23-80 | One transaction that writes five tables in turn and rolls back: the result and all tables are the specified ones, and a failure or a replay changes nothing |
| WorkbenchReceipts.PutStoresExactly | backend/internal/infra/agent_workbench_repo_receipts.go:14-161 | In every reachable state a put is accepted if and only if the command is new or the receipt is an allowed edge from the stored one; then exactly this receipt is stored and answered, however often it is repeated, and otherwise nothing changes |
| WorkbenchRuns.SnapshotIsEnsuredOnce | backend/internal/infra/agent_workbench_repo_snapshot.go:11-52 | At every later point of every run, ensuring a snapshot of the session again changes nothing and answers its current state, in the epoch first answered |
| WorkbenchRepo.Repository.InspectSources | backend/internal/infra/agent_workbench_repo_source.go:11-39 | The counting loop decides replay, new or conflict |
| WorkbenchRepo.ValidateSources | backend/internal/infra/agent_workbench_repo_append_validation.go:96-121 | The two lookup sets find exactly the clashing sources |
| WorkbenchRuns.LogShape | backend/internal/infra/agent_workbench_repo.go:23-157 | In every reachable state a session's event rows are the concatenation of its applied appends, its revision their number and its sequence their length |
| WorkbenchRuns.LogIsContiguous | backend/internal/infra/agent_workbench_repo_append_validation.go:72-147 | Sequences 1 to the latest without gap in one epoch, each revision labelling one non-empty contiguous block, counters never wrapping |
| WorkbenchRuns.LogOnlyGrows | backend/internal/infra/agent_workbench_repo.go:123-157 | No step changes an epoch or an event row or moves a counter back |
| WorkbenchRuns.Play | backend/internal/infra/agent_workbench_repo.go:23-80 | Playing a run on the repository leaves exactly the tables of the run |
| WorkbenchOnce.SourcesHold | backend/internal/infra/agent_workbench_repo_source.go:72-91 | Stable id and runner sequence are both keys, and the rows are exactly the sources of applied appends |
| WorkbenchOnce.AppliedIsReplayed | backend/internal/infra/agent_workbench_repo.go:31-42 | An applied append with sources is answered as a replay, without change, at every later point of every run |
| WorkbenchOnce.ReplayIffRecorded | backend/internal/infra/agent_workbench_repo_source.go:11-39 | A valid request with sources is a replay if and only if all its sources are recorded |
| WorkbenchOnce.PartlySeenConflicts | backend/internal/infra/agent_workbench_repo_source.go:32-38 | A request with known and unknown sources conflicts and changes nothing |
| WorkbenchOnce.OneApplyPerRevision | backend/internal/infra/agent_workbench_repo_append_validation.go:123-147 | Of all appends with one expected revision at most one is ever applied |
| WorkbenchAnswers.AppendAnswers | backend/internal/infra/agent_workbench_repo.go:31-78 | The answer to every valid append in every reachable state: a replay when all its sources are recorded, a source conflict when one clashes with a recorded one, then the revision, stream or event conflict by what does not continue the log, then the refusals of files and of receipts, and else it is applied |
| WorkbenchAnswers.AppliedExactly | backend/internal/infra/agent_workbench_repo_append_validation.go:123-147 | A valid append is applied if and only if its sources are new, its expected revision is the number of applied appends, its first sequence follows the log, its epoch is the session's, and its files and receipts are accepted |
| WorkbenchAnswers.AppendWrites | backend/internal/infra/agent_workbench_repo.go:50-76 | An applied append stores its projection, and its receipts in order with the last one of a command on top |
| WorkbenchRows.ValidExactly | backend/internal/infra/agent_workbench_repo_append_validation.go:11-121 | Which requests are valid, in terms of the rows they would store and of a gapless run of sequences |
| WorkbenchRows.RowsStaySound | backend/internal/infra/agent_workbench_repo_append_validation.go:11-121 | In every reachable state every row lies under its own key, with trimmed texts of bounded length and SHA-256 digests |
| WorkbenchRows.AppendIsLocal | backend/internal/infra/agent_workbench_repo.go:23-80 | An append leaves the state, log, sources and receipts of every other session as they are |
| WorkbenchFiles.FilesInsertExactly | backend/internal/infra/agent_workbench_repo_artifact_files.go:12-44 | The files of one request are all stored if and only if each by itself is new or recorded under the same description, whatever their order |
| WorkbenchFiles.AppendRecordsFiles | backend/internal/infra/agent_workbench_repo_artifact_files.go:12-44 | An applied append records every file it names, changes no file row and adds none but its own; any other append adds none |
| WorkbenchFiles.FilesStayKeyed | backend/internal/infra/agent_workbench_repo_artifact_files.go:12-44 | Ids and storage keys stay keys of the file table over every run whose other users keep them so |
| WorkbenchFiles.FileIsRefused | backend/internal/infra/agent_workbench_repo_artifact_files.go:12-44 | Which file is accepted and which refusal the others get: a bad id, a row of another session or id in the way, another description |
| WorkbenchRepo.ValidateArtifactFiles | backend/internal/infra/agent_workbench_repo_append_validation.go:42-70 | The two lookup sets find exactly the files that share an id or a storage key |
| WorkbenchReceipts.ReceiptRuns | backend/internal/infra/agent_workbench_repo_receipts.go:55-161 | Over any run a receipt moves only along allowed edges, put by put, and the stored row is the last value |
| WorkbenchReceipts.ReceiptLife | backend/internal/infra/agent_workbench_repo_receipts.go:128-161 | The digest never changes, the state changes at most three times, and a terminal receipt is frozen |
| ApplyRepo.Repository.RunApplyTransaction | backend/internal/infra/orchestration_resource_apply.go:15-94 | For any builder, clock, drawn id and membership the result and the tables are the specified ones, authorization and decoding included, and a failure rolls every table back |
| ApplyChain.RunTwice | backend/internal/infra/orchestration_resource_apply_idempotent.go:11-78 | An idempotent apply that succeeded answers the same head when it is run again by whoever may still apply it, with any builder and clock, and writes nothing twice |
| ApplyRuns.ApplyTook | backend/internal/infra/orchestration_apply_write.go:9-129 | A successful apply consumed one pending plan and stored a head and a revision that carry its document |
| ApplyChain.RevisionChain | backend/internal/infra/orchestration_apply_validation.go:14-113 | Every head has version equal to revision, revisions exactly 1 to its own, one identity and creator, a generation of one plus its spec changes, and shows the name, labels, status, author and time of its last revision |
| ApplyChain.RevisionHasOnePlan | backend/internal/infra/orchestration_apply_plan_binding.go:18-50 | Every stored revision is the result of exactly one plan, applied in time by its actor, and has the plan's document with the server's fields filled in and exactly the plan's references, each once |
| ApplyChain.OneUpdatePerBase | backend/internal/infra/orchestration_apply_state.go:53-95 | Two plans with one base version of a resource are never both applied |
| ApplyChain.OneCreatePerTarget | backend/internal/infra/orchestration_apply_state.go:53-95 | Two plans creating one target are never both applied |
| ApplyChain.StepKeeps | backend/internal/infra/orchestration_apply_write.go:86-129 | No step changes a resource's identity or creator, a stored revision or a consumed plan |
| ApplyChain.AppliedPlanIsSpent | backend/internal/infra/orchestration_apply_authorization.go:69-123 | Applying a consumed plan changes nothing, and in every reachable state answers corrupt if and only if the resource has moved on, and else forbidden or consumed as the caller is authorized |
| ApplyChain.ApplyStores | backend/internal/infra/orchestration_resource_apply.go:42-94 | The head reported is the head stored, and the plan's outcome names it |
| ApplyAnswers.ApplyAnswers | backend/internal/infra/orchestration_resource_apply.go:42-94 | The answer to every pending plan in every reachable state and for every builder: it is applied if and only if it is due, its target is as planned on, the caller may apply it, the mutation is right and the drawn id and uid are new; else the error says which, and nothing is written |
| ApplyAnswers.AcceptsExactly | backend/internal/infra/orchestration_apply_validation.go:14-93 | The checks accept exactly the mutations that continue the counters, carry the plan's document, references, artifact, actor and time, and show it in the head |
| ApplyAnswers.OthersPlanIsNotFound | backend/internal/infra/orchestration_apply_state.go:21-35 | A plan of another tenant or actor is not found, applied or run again |
| ApplyChain.RerunAnswers | backend/internal/infra/orchestration_resource_apply_idempotent.go:49-78 | A consumed plan run again answers corrupt if and only if its resource has moved on, else its head to whoever is authorized |
| ApplyChain.OvertakenPlanIsCorrupt | backend/internal/infra/orchestration_resource_apply_idempotent.go:71-76 | As soon as a later plan was applied to the resource, running the earlier one again is answered as corrupt |
| ApplyChain.HeadsAreStorable | backend/internal/infra/orchestration_apply_validation.go:14-50 | In every reachable state every stored head passes the checks of a head |
| WorkerLaunchRuns.ClaimAnswers | backend/internal/infra/orchestration_worker_launch_claim.go:15-113 | The answer to every request to claim in every reachable state, and the row and the claim field by field |
| WorkerLaunchRuns.ClaimGrants | backend/internal/infra/orchestration_worker_launch_claim.go:15-76 | A granted claim counts one attempt, touches nothing else and passes the lease check exactly until its lease ends; others of the organization are granted one if and only if it has ended |
| WorkerLaunchRuns.ClaimThenComplete | backend/internal/infra/orchestration_worker_launch_complete.go:14-88 | Completing a granted claim succeeds if and only if the lease is not over and no command of that name waits; then the launch has the caller's pod, and the waiting command its payload, runner, pod key, creation time and an expiry of that time plus the caller's |
| WorkerLaunchRuns.ClaimThenRelease | backend/internal/infra/orchestration_worker_launch_release.go:11-67 | A granted claim can be released by the launch's own actor and no other; claiming and releasing a pending launch leaves only the attempt and the reason behind |
| WorkerLaunchRuns.DispatchedAtMostOnce | backend/internal/infra/orchestration_worker_launch_complete.go:29-83 | Under every interleaving and clock at most one command is ever enqueued for a launch, one exactly when it is dispatched, named after the launch, with a payload and up to seven days to be delivered |
| WorkerLaunchRuns.DispatchedIsFinal | backend/internal/infra/orchestration_worker_launch_claim.go:36-57 | No step changes a dispatched launch |
| WorkerLaunchRuns.CommandIdsDiffer | backend/internal/infra/orchestration_worker_launch_complete.go:48 | Different launches have different command ids |
| WorkerLaunchRuns.AttemptsAreClaims | backend/internal/infra/orchestration_worker_launch_claim.go:36-57 | The attempt count is the number of claims taken, and token and lease are set exactly while materializing |
| WorkerLaunchRuns.OnlyCurrentClaimVerifies | backend/internal/infra/orchestration_worker_launch_completion_validation.go:71-93 | With distinct tokens only the current claim passes the lease check, every other is told its lease is lost, and an issued claim is never called corrupt |
| WorkerLaunchRuns.StaleHolderIsFenced | backend/internal/infra/orchestration_worker_launch_release.go:23-48 | A holder that was taken over changes nothing by completing or releasing |
| WorkerLaunchRuns.OneCompletionEver | backend/internal/infra/orchestration_worker_launch_complete.go:29-83 | Of all completions in a run, by whatever claims, tokens and clocks, at most one per launch succeeds |
| WorkerLaunchRuns.OneClaimVerifies | backend/internal/infra/orchestration_worker_launch_completion_validation.go:71-93 | In one state, whatever the two clocks read, two different claims of a launch never both pass the lease check |
| WorkerLaunchRuns.ReleasesExactly | backend/internal/infra/orchestration_worker_launch_release.go:23-48 | With no assumption on tokens, an issued claim can release its launch if and only if the launch is held under the same token |
| WorkerLaunchRuns.VerifiesExactly | backend/internal/infra/orchestration_worker_launch_completion_validation.go:71-93 | With no assumption on tokens, an issued claim passes the lease check if and only if the last claim has the same token and lease and the lease is not over |
| WorkerLaunchRuns.ReusedTokenIsNotFenced | backend/internal/infra/orchestration_worker_launch_release.go:28-33 | In the run that claims a launch twice with one token, the holder that was taken over can release the new claim |
| MarketRepo.Repository.CreateSubmission | backend/internal/infra/expert_market_submission_repo.go:11-62 | Allocates the version after the greatest and inserts, or leaves both tables unchanged |
| MarketRuns.ChangeIsRefusedExactly | backend/internal/infra/expert_market_lifecycle_repo.go:11-51 | A change that does not publish is refused for the pointer's sake if and only if it would make the pointer wrong; an accepted one changes no other release and nobody's highest release |
| MarketRuns.UpdateKeepsPointerExactly | backend/internal/infra/expert_market_lifecycle_repo.go:53-103 | Writing a status alone keeps the pointer right if and only if it does not unpublish the latest release and does not publish one above it |
| MarketAnswers.SubmissionAnswers | backend/internal/infra/expert_market_submission_repo.go:32-62 | A submission to a located application is refused as pending if and only if some release of it awaits review; the other refusals, and else the release as it is stored |
| MarketAnswers.OneReviewAtATime | backend/internal/infra/expert_market_submission_repo.go:32-44 | In every run whose releases come under review by submission only, no application ever has two releases under review |
| MarketAnswers.PublishAnswers | backend/internal/infra/expert_market_lifecycle_repo.go:53-103 | The answer to every publication; the pointer moves if and only if the release outranks every other published one, and each field of the release is the update's where given |
| MarketAnswers.WithdrawAnswers | backend/internal/infra/expert_market_withdrawal_repo.go:12-77 | The answer to every withdrawal; a pointer to the release goes to the highest published one of the others, or to none |
| MarketAnswers.AlwaysRegistered | backend/internal/infra/expert_market_submission_repo.go:11-31 | In every state of every run slugs and sources are unique, and a release belongs to the publisher of its application |
| MarketRepo.Repository.UpdateReleaseLifecycleAndLatest | backend/internal/infra/expert_market_lifecycle_repo.go:53-103 | Publishes and raises the pointer when the version is greater |
| MarketRepo.Repository.WithdrawReleaseAndRefreshLatest | backend/internal/infra/expert_market_withdrawal_repo.go:12-77 | Withdraws and moves a pointer to the release to the next published one |
| MarketRepo.Repository.LatestVersion | backend/internal/infra/expert_market_submission_repo.go:45-50 | The loop finds the greatest version of an application, zero if there is none |
| MarketRepo.Repository.FirstPublished | backend/internal/infra/expert_market_withdrawal_repo.go:55-77 | The loop finds the published release that comes first by version and id |
| MarketRuns.PointerIsMaximum | backend/internal/infra/expert_market_lifecycle_repo.go:11-103 | In every state of every run an application caches a release as latest if and only if that is its highest published one, and none if and only if none is published |
| MarketRuns.InsertKeepsPointerExactly | backend/internal/infra/expert_market_release_repo.go:11-20 | Creating a release keeps the pointer right if and only if it is unpublished or outranked by the one pointed at |
| MarketRuns.SubmissionKeepsPointerExactly | backend/internal/infra/expert_market_submission_repo.go:32-60 | A submission gets a version above all others and keeps the pointer right if and only if it is not yet published |
| MarketRuns.PublishedSubmissionBreaksPointer | backend/internal/infra/expert_market_submission_repo.go:32-60 | A submission stored as already published always leaves the pointer wrong |

## Left out

- AgentFile evaluation, interpolation and builtins: they iterate over unordered maps and rely on regular expressions.
- Source positions of tokens and nodes, and the wording of error messages.
- Letters, digits and printable characters outside ASCII: their classes are arbitrary sets, so every result holds for any such tables; bytes that are not valid UTF-8 are not modelled.
- Lower-casing of capability axes and values covers ASCII letters only.
- CONFIG numbers that are not integers a float64 holds exactly keep their literal; `%g` printing and reading them back is not modelled, and the round trip excludes them.
- NormalForm.ParseSerializeParse: declarations whose quoted names are printed bare and are no names, SELECTs without options, fractional defaults and unprintable PROMPT texts are excluded, because their texts do lose information.
- NormalForm.SurvivesExactly: exact in the precedence condition for printable programs; the conditions of printability are shown exact piece by piece, not for whole programs.
- Declarations shared by pointer between a merged program, its copies and the slice: declarations are values here, so copies are changed one by one.
- SQL text, advisory and row locks, transaction isolation, foreign keys to other tables and triggers that repeat a check: each transaction is one atomic step.
- Time stamps of workbench rows and the session table; byte payloads are opaque. The services that share the file table may rewrite it at any point of a run.
- The document, slug, UUID and timestamp checks of the domain's Validate methods: left open as arbitrary predicates where nothing proved depends on them.
- Canonical JSON and digests: documents are compared as the values they encode, and sorted reference lists as sets.
- The member table of the authorization: the role it finds is a parameter of each apply. The projections that typed applies write beside the resource.
- What other callers do between the two transactions of an idempotent apply.
- The pod and runner lookup of a completing launch is a parameter, and the applied worker that is loaded afterwards is not modelled.
- Uniqueness of a launch's plan and resource, prompt and alias contents.
- Release and application fields that no operation here reads: names, tags, snapshots and user ids.
- Queries that only list or fetch rows.
