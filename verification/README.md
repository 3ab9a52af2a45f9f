# cqlsh protocols, parser and printers

A Dafny model of the parts of cqlsh (Apache Cassandra 3.11.1) and of the jQuery bundled with its
documentation that carry real logic, with proofs of what they promise.

- **COPY FROM** (`ImportProtocol`, `ImportSystem`, `ImportFates`, `ErrorFileRun`, `ImportProgress`, `ImportBatches`,
  `FilesReader`): feeder, workers,
  driver and parent as one state machine over first-in first-out channels. Which step comes next and
  which rows and batches fail is open, so the theorems hold for every interleaving.
- **COPY TO** (`ExportProtocol`, `ExportHistory`, `ExportProgress`, `TokenRanges`, `ExportWriter`): token ranges handed to workers,
  retried and merged into files of limited size; the ring arithmetic that makes the ranges.
- **The parser engine** (`Pylexotron`, `GrammarSemantics`, `Termination`, `Completion`,
  `Continuation`, `MatcherLoops`, `RuleCompiler`): the backtracking matchers against a declarative grammar semantics,
  exactly when they terminate, what completion offers and where it leads, and the compiler of rule
  texts.
- **Printers and readers** (`CqlText`, `CqlLiterals`, `TypeStrings`, `TypeCycles`, `Durations`, `Vints`): collection
  literals, type strings, durations and variable-length integers.
- **The shell loop** (`StatementSplitter`, `ShellLoop`): cutting input into statements, independently
  of how it comes in lines.
- **jQuery.Deferred** (`Deferred`): the re-entrant callback lists against a promise settled once.

Loops and objects of the source are methods and classes proved equal to functions; the theorems are
about those functions. `dafny verify dfyconfig.toml` checks everything.

## Assumptions about the environment

- Every submitted future completes with exactly one callback; no exception escapes the dispatch loop
  of the import worker (`copyutil.py:2402` would report the whole chunk again).
- `csv.reader` yields one row per line. In export the pages of an attempt precede its single ending
  message and formatting a page does not raise (`copyutil.py:1700` would add a message).
- Lines of a file are never empty strings, so dropping empty ones changes nothing.
- The lexer of the shell is a parameter: it must lex the text after a complete buffer that ends in a
  newline as if it stood alone.
- The state of hosts does not change while one chunk is split into batches.
- jQuery handlers return normally.

## Where the code does less than one would expect

- A begin token beyond the ring yields no ranges, and begin or end token 0 counts as absent
  (`TokenRanges.RangesExact` gives the exact condition).
- Import and export disagree about ring tokens themselves (`TokenRanges.RoutingAgrees`,
  `TokenRanges.RingTokenDisagrees`).
- A retried error named like a parse error is written to the error file although the rows may
  later be inserted (`ImportSystem.ErrorFileExact`, `ErrorFileRun.InsertedRowInErrorFile`).
- A completion can be a dead end when some rule derives nothing (`Continuation.OfferedLeadsToMatch`,
  `Continuation.OfferLeadsNowhere`).
- A composite type whose single argument is one character loses it (`TypeStrings.TypeRoundTrip`).
- Durations of mixed sign print alike (`Durations.PrintAlike`).
- A user type whose field is called like a Python keyword cannot be imported at all
  (`CqlLiterals.NameRefused`, `CqlLiterals.KeywordRefused`).
- An empty file among files with headers loses the rows of the read that comes upon it
  (`FilesReader.DeliveredExactly`, `FilesReader.EmptyFileLosesRow`).
- A row with a newline inside can be cut across two output files (`ExportWriter.ExtraLines`,
  `ExportWriter.RowCutInTwo`).
- Texts with backslashes or control characters, and components that read like the null marker, do not
  survive a literal (`CqlLiterals.LiteralRoundTrip`, `CqlLiterals.TextsLost`). The range of the control character pattern
  (`formatting.py:36`) also covers printable characters, which print as themselves.

## Model

| member | source | states |
|---|---|---|
| `GrammarSemantics.MatchSound` | apache-cassandra-3.11.1/pylib/cqlshlib/pylexotron.py:166-252 | every context a matcher returns has consumed a prefix of the input that the grammar derives, with matched + remainder unchanged, the production name restored, and exactly the bindings that derivation makes added |
| `GrammarSemantics.MatchComplete` | apache-cassandra-3.11.1/pylib/cqlshlib/pylexotron.py:166-252 | every derivable prefix of the input, with what its derivation binds, is found by the matcher, whatever the choice, series or repeat nesting |
| `GrammarSemantics.MatchExact` | apache-cassandra-3.11.1/pylib/cqlshlib/pylexotron.py:90-97 | the contexts returned are exactly those after a derivable prefix with the bindings of a derivation, nothing more and nothing less |
| `GrammarSemantics.RepeatSound` | apache-cassandra-3.11.1/pylib/cqlshlib/pylexotron.py:182-194 | every context of the repeat loop lies after some number of derivations of its body |
| `GrammarSemantics.RepeatComplete` | apache-cassandra-3.11.1/pylib/cqlshlib/pylexotron.py:182-194 | every number of derivations of the body is found by the repeat loop |
| `GrammarSemantics.FirstWhole` | apache-cassandra-3.11.1/pylib/cqlshlib/pylexotron.py:494-500 | the context chosen is the first with an empty remainder, and there is none only if no context has one |
| `GrammarSemantics.WholeMatchIffDerivable` | apache-cassandra-3.11.1/pylib/cqlshlib/pylexotron.py:487-500 | whole_match succeeds iff the start rule derives the full token list, and then returns a context that matched all of it, with the bindings of a derivation |
| `GrammarSemantics.TerminalAccepts` | apache-cassandra-3.11.1/pylib/cqlshlib/pylexotron.py:255-312 | a word matches a token iff the two agree character by character up to the case of ASCII letters, a case-sensitive word iff they are equal, a pattern as the pattern says |
| `GrammarSemantics.DerivableBinds` | apache-cassandra-3.11.1/pylib/cqlshlib/pylexotron.py:223-252 | named symbols and collectors do not change what is derivable: a list is derivable iff it is with some bindings |
| `Termination.FuelIrrelevant` | apache-cassandra-3.11.1/pylib/cqlshlib/pylexotron.py:166-252 | an answer reached with some recursion depth is the answer at every greater depth |
| `Termination.LeftRefNever` | apache-cassandra-3.11.1/pylib/cqlshlib/pylexotron.py:197-221 | a matcher that calls a rule before consuming a token returns only if that rule returns on the same input |
| `Termination.CycleNever` | apache-cassandra-3.11.1/pylib/cqlshlib/pylexotron.py:197-206 | a cycle of left calls never returns, on any input |
| `Termination.RepeatNever` | apache-cassandra-3.11.1/pylib/cqlshlib/pylexotron.py:182-194 | a repeat whose body can match nothing never returns, on any input |
| `Termination.WellFormedReturns` | apache-cassandra-3.11.1/pylib/cqlshlib/pylexotron.py:166-252 | without left recursion and without nullable repeat bodies every matcher returns on every input |
| `Termination.TerminationExact` | apache-cassandra-3.11.1/pylib/cqlshlib/pylexotron.py:166-252 | for a table whose references are all defined: every matcher returns on every input iff no rule is left recursive and no repeat body is nullable |
| `Termination.WholeMatchDecides` | apache-cassandra-3.11.1/pylib/cqlshlib/pylexotron.py:487-500 | on such tables whole_match is a decision procedure for derivability |
| `Completion.CollectIrrelevant` | apache-cassandra-3.11.1/pylib/cqlshlib/pylexotron.py:139-160 | match results are the same whether completions are being collected or not, also when registered completers run |
| `Completion.CompletionExact` | apache-cassandra-3.11.1/pylib/cqlshlib/pylexotron.py:139-160 | for every table the completion set is exactly the labels of the terminals expected after all tokens that stand under no named symbol whose completer answers there, plus the words of the completers that answer there under no other such one, each asked with the bindings of the derivation that leads to it |
| `Completion.CompletionPlain` | apache-cassandra-3.11.1/pylib/cqlshlib/pylexotron.py:509-519 | without registered completers that is the set of labels of all the terminals expected |
| `Completion.LabelExact` | apache-cassandra-3.11.1/pylib/cqlshlib/pylexotron.py:255-296 | a word offers itself as written, a pattern the name of its production |
| `Continuation.PositionLeads` | apache-cassandra-3.11.1/pylib/cqlshlib/pylexotron.py:166-312 | for every table: the tokens so far, what the matcher at an expected position derives, and whatever the matchers still to come derive, make up a derivation |
| `Continuation.PositionFound` | apache-cassandra-3.11.1/pylib/cqlshlib/pylexotron.py:166-312 | and in every derivation of a longer token list the next token is read at an expected position whose remaining matchers derive the rest |
| `Continuation.NextTokenExact` | apache-cassandra-3.11.1/pylib/cqlshlib/pylexotron.py:268-312 | a token list goes on with a token and a tail to a derivable one iff an expected position accepts the token and the matchers still to come behind it derive the tail |
| `Continuation.OfferedLeadsToMatch` | apache-cassandra-3.11.1/pylib/cqlshlib/pylexotron.py:509-519 | for every table: a token can be appended and continued to a whole match iff a position that accepts it and can be completed is represented in what is offered, by its own label or by the words of the outermost completer that answers around it |
| `Continuation.ProductiveOffersLead` | apache-cassandra-3.11.1/pylib/cqlshlib/pylexotron.py:509-519 | if every part of every rule derives something, every offer comes from an open position and after whatever the matcher there derives there is a way to a whole match |
| `Continuation.OfferedLiteralLeads` | apache-cassandra-3.11.1/pylib/cqlshlib/pylexotron.py:289-296 | in such tables a token with the offered text itself can be appended and continued to a whole match (or any token of the class that stands behind the text) |
| `Continuation.OfferLeadsNowhere` | apache-cassandra-3.11.1/pylib/cqlshlib/pylexotron.py:509-519 | a table with a rule that never ends, whose offer can never be completed |
| `MatcherLoops.RunMatch` | apache-cassandra-3.11.1/pylib/cqlshlib/pylexotron.py:166-252 | the matcher run with explicit loops, returning the completions it collects, computes Match |
| `MatcherLoops.RunChoice` | apache-cassandra-3.11.1/pylib/cqlshlib/pylexotron.py:166-173 | the loop over branches concatenates their results and unions their completions |
| `MatcherLoops.RunSeries` | apache-cassandra-3.11.1/pylib/cqlshlib/pylexotron.py:209-220 | the loop over pieces threads the contexts through all of them and stops early when none is left |
| `MatcherLoops.RunRepeat` | apache-cassandra-3.11.1/pylib/cqlshlib/pylexotron.py:182-194 | the loop collects the contexts of every round until a round finds none |
| `RuleCompiler.ReadRuleTokensUntil` | apache-cassandra-3.11.1/pylib/cqlshlib/pylexotron.py:406-459 | the loop over a token cursor with its stack of pieces computes Read, with its errors for missing closers, misplaced postfixes and unknown tokens |
| `RuleCompiler.UnitRead` | apache-cassandra-3.11.1/pylib/cqlshlib/pylexotron.py:406-459 | reading a printed unit pushes exactly that unit, with postfix ? and * bound to the whole named symbol |
| `RuleCompiler.BodyRead` | apache-cassandra-3.11.1/pylib/cqlshlib/pylexotron.py:399-459 | for every tree in normal form, reading its printed body up to the closing token rebuilds the tree and leaves the rest of the tokens |
| `RuleCompiler.ReadAgain` | apache-cassandra-3.11.1/pylib/cqlshlib/pylexotron.py:406-459 | whatever text is accepted, the tree read from it is in normal form, and printing it and reading that gives the same tree again |
| `RuleCompiler.BodyRefused` | apache-cassandra-3.11.1/pylib/cqlshlib/pylexotron.py:406-459 | after any printed body, an end without the closing token, a closing token of the other kind and a ::= are errors |
| `RuleCompiler.PieceRefused` | apache-cassandra-3.11.1/pylib/cqlshlib/pylexotron.py:406-459 | so are a postfix with nothing in front of it in its branch, and an @ without a literal behind it |
| `RuleCompiler.RulesRoundTrip` | apache-cassandra-3.11.1/pylib/cqlshlib/pylexotron.py:375-396 | parsing the printed text of any list of definitions gives back the rule table and the terminals they define |
| `ImportProtocol.ReportOk` | apache-cassandra-3.11.1/pylib/cqlshlib/copyutil.py:2590-2600 | giving up rows keeps the chunk's accounts and emits its result exactly when they were the last |
| `ImportProtocol.SubmitOk` | apache-cassandra-3.11.1/pylib/cqlshlib/copyutil.py:2463-2489 | submitting a batch moves its rows from undispatched to in flight |
| `ImportProtocol.SuccessOk` | apache-cassandra-3.11.1/pylib/cqlshlib/copyutil.py:2575-2577 | a batch that succeeds settles its rows once and emits the chunk result exactly when the last row settles |
| `ImportProtocol.FailureOk` | apache-cassandra-3.11.1/pylib/cqlshlib/copyutil.py:2578-2600 | a failing batch keeps the chunk's accounts and the limit of max(1, maxattempts) submissions, reports exactly the rows it gives up or counts again, and never takes the branch for a chunk already complete |
| `ImportProtocol.ImportWorker.UpdateChunk` | apache-cassandra-3.11.1/pylib/cqlshlib/copyutil.py:2597-2600 | adds the rows to the chunk's imported field and reports when it reaches num_rows_sent |
| `ImportProtocol.ImportWorker.ResultCallback` | apache-cassandra-3.11.1/pylib/cqlshlib/copyutil.py:2575-2577 | the fields after the callback are those of OnSuccess |
| `ImportProtocol.ImportWorker.ErrCallback` | apache-cassandra-3.11.1/pylib/cqlshlib/copyutil.py:2578-2589 | the fields after the callback are those of OnFailure, with the attempt counted and the retry or the final report sent |
| `ImportSystem.StepInv` | apache-cassandra-3.11.1/pylib/cqlshlib/copyutil.py:2369-2403 | every step of feeder, worker, driver and parent keeps the accounts of rows, messages and counters |
| `ImportSystem.RunInv` | apache-cassandra-3.11.1/pylib/cqlshlib/copyutil.py:2463-2489 | the accounts hold after every run |
| `ImportSystem.ChunkAccounting` | apache-cassandra-3.11.1/pylib/cqlshlib/copyutil.py:2575-2600 | in every run, for every chunk: each row is undispatched, in flight, inserted or given up exactly once; imported is the number of settled rows; the result is emitted once, exactly when the last row settles; no batch is submitted more than max(1, maxattempts) times |
| `ImportFates.StepFates` | apache-cassandra-3.11.1/pylib/cqlshlib/copyutil.py:2574-2600 | for every event in every reachable state and every chunk: which rows it inserts and gives up, and which futures there are after it; a failed batch with attempts left whose statement can be made keeps its rows and gets one more future |
| `ImportFates.RetryExact` | apache-cassandra-3.11.1/pylib/cqlshlib/copyutil.py:2578-2589 | in every run a failing batch is tried again, with nothing given up, iff it was submitted fewer than max(1, maxattempts) times and its statement can be made; otherwise its rows are given up |
| `ImportFates.FatesExact` | apache-cassandra-3.11.1/pylib/cqlshlib/copyutil.py:2574-2600 | in every run the rows inserted are those of the batches that succeeded, and the rows given up those reported while dispatching and those of the failed batches not tried again, each as often |
| `ImportFates.WhyGivenUp` | apache-cassandra-3.11.1/pylib/cqlshlib/copyutil.py:2578-2596 | every row given up was reported while dispatching, or its batch failed with all its submissions used up, or its batch failed and no statement could be made again |
| `ImportSystem.ExitMeansSettled` | apache-cassandra-3.11.1/pylib/cqlshlib/copyutil.py:1213-1275 | if the parent loop exits by its own condition, every row the feeder sent has been settled and nothing is in flight |
| `ImportSystem.ErrorFileExact` | apache-cassandra-3.11.1/pylib/cqlshlib/copyutil.py:1080-1099 | on that exit the error file holds exactly the rows given up iff no batch failed with an error named like a parse error while it had attempts left |
| `ImportSystem.RunRecounts` | apache-cassandra-3.11.1/pylib/cqlshlib/copyutil.py:2578-2596 | over every run, rows are written to the error file and tried again iff such a failure occurs |
| `ErrorFileRun.InsertedRowInErrorFile` | apache-cassandra-3.11.1/pylib/cqlshlib/copyutil.py:2578-2596 | a run that ends with a row both inserted and in the error file |
| `ImportProgress.StepFalls` | apache-cassandra-3.11.1/pylib/cqlshlib/copyutil.py:2369-2403 | every step of a worker, of the driver or of a channel lowers a measure of the work left, retries included |
| `ImportProgress.StepsBounded` | apache-cassandra-3.11.1/pylib/cqlshlib/copyutil.py:2575-2600 | once the feeder is done a run has at most as many such steps as the measure says |
| `ImportProgress.ImportCanFinish` | apache-cassandra-3.11.1/pylib/cqlshlib/copyutil.py:1213-1275 | every run can be continued to the parent's own exit |
| `ImportBatches.FilterReplicas` | apache-cassandra-3.11.1/pylib/cqlshlib/copyutil.py:2205-2207 | keeps exactly the replicas that are not down and in the local datacenter, each as often as before, in some order |
| `ImportBatches.GroupByPosition` | apache-cassandra-3.11.1/pylib/cqlshlib/copyutil.py:2524-2545 | every list is the sequence of the rows of its ring position in their order, and the error rows are those without a position |
| `ImportBatches.CutRows` | apache-cassandra-3.11.1/pylib/cqlshlib/copyutil.py:2547-2573 | rows are cut in order into batches that are full except perhaps the last, each with all usable candidates filtered anew in some order, or with the given key |
| `ImportBatches.BatchRows` | apache-cassandra-3.11.1/pylib/cqlshlib/copyutil.py:2524-2573 | for any routing: every position with rows is in exactly one group, by itself if it has more than minbatchsize rows, else with the positions that share its replica key; the batches are those of the groups, cut in order; errors and batches hold each row as often as before |
| `ImportBatches.SplitIntoBatches` | apache-cassandra-3.11.1/pylib/cqlshlib/copyutil.py:2524-2573 | on the token ring: a batch with a row of a position with more than minbatchsize rows carries every usable replica of that position as often as the ring does, any other batch one usable replica common to its rows' positions, or none iff they have none; batches of 1..maxbatchsize rows, full except the last of a group; rows without a token are the errors; nothing lost or doubled |
| `ImportBatches.BatchTogether` | apache-cassandra-3.11.1/pylib/cqlshlib/copyutil.py:2557-2573 | rows of different ring positions share a batch only if each position has at most minbatchsize rows |
| `ExportProtocol.StepInv` | apache-cassandra-3.11.1/pylib/cqlshlib/copyutil.py:796-840 | every step of parent, worker and driver keeps the accounts of ranges, attempts and pages |
| `ExportProtocol.ExportAccounting` | apache-cassandra-3.11.1/pylib/cqlshlib/copyutil.py:785-840 | in every run: succeeded + failed + outstanding = all ranges; each range is sent at most max(1, maxattempts) times; all pages produced for a range come from one attempt, and what is written is a prefix of them in order |
| `ExportProtocol.ExportComplete` | apache-cassandra-3.11.1/pylib/cqlshlib/copyutil.py:1664-1698 | when the parent's count is reached, every range has succeeded or been given up and all its pages have been written in order |
| `ExportHistory.RangeVerdict` | apache-cassandra-3.11.1/pylib/cqlshlib/copyutil.py:785-840 | in every run, for every range: the messages received about it are the first of those sent, in order; it was sent once and again for every failure received but the one it was given up at, each time to the next worker; what is written of it is the pages received |
| `ExportHistory.ExportVerdicts` | apache-cassandra-3.11.1/pylib/cqlshlib/copyutil.py:815-840 | in every run succeeded is the number of ranges whose end has been received, and failed the number of ranges whose last message is a failure that is the maxattempts-th or came after rows |
| `ExportHistory.ExportOutcome` | apache-cassandra-3.11.1/pylib/cqlshlib/copyutil.py:811-850 | when the parent's count is reached every range is done or lost by what the workers sent about it, and the counters say how many are which |
| `ExportProgress.StepFalls` | apache-cassandra-3.11.1/pylib/cqlshlib/copyutil.py:796-840 | every step but the arrival of a page lowers a measure of attempts, phases and messages left |
| `ExportProgress.StepsBounded` | apache-cassandra-3.11.1/pylib/cqlshlib/copyutil.py:796-840 | no run goes on for ever without pages arriving |
| `ExportProgress.ExportCanFinish` | apache-cassandra-3.11.1/pylib/cqlshlib/copyutil.py:796-840 | every run can be continued, without any further page, to the parent's own exit |
| `ExportProtocol.ExportTask.SendRanges` | apache-cassandra-3.11.1/pylib/cqlshlib/copyutil.py:785-794 | the loop sends the ranges round-robin starting after the previous worker and counts the attempt of each |
| `ExportProtocol.ExportTask.HandleMessage` | apache-cassandra-3.11.1/pylib/cqlshlib/copyutil.py:796-840 | the counters, ranges and written pages after a message are those of Handle, including the retry that is allowed only before any row arrived |
| `TokenRanges.LoopRing` | apache-cassandra-3.11.1/pylib/cqlshlib/copyutil.py:735-767 | the ranges built from the ring are pairwise disjoint, select exactly the queried tokens, and carry the hosts of the ring entry that owns them |
| `TokenRanges.GetRanges` | apache-cassandra-3.11.1/pylib/cqlshlib/copyutil.py:671-767 | the refusals, the session's host without a token map, and for a ring ranges whose hosts are the addresses of the replicas of the owning entry that are not down and in the session's datacenter, in order and as often, or the session's host if there are none |
| `TokenRanges.RangeHostsExact` | apache-cassandra-3.11.1/pylib/cqlshlib/copyutil.py:711-720 | the hosts of a range are exactly those addresses, or the session's host |
| `TokenRanges.RangesExact` | apache-cassandra-3.11.1/pylib/cqlshlib/copyutil.py:691-767 | for a sorted ring of two or more tokens the union of the ranges is exactly (begin, end] iff begin is not 0, a non-minimum ring token reaches begin (or nothing is wanted), and an end token 0 does not cut the ring |
| `TokenRanges.Misfit` | apache-cassandra-3.11.1/pylib/cqlshlib/copyutil.py:691-709 | in every other case there is a token that is queried and not wanted, or wanted and not queried |
| `TokenRanges.BeginBeyondRing` | apache-cassandra-3.11.1/pylib/cqlshlib/copyutil.py:761-762 | a concrete ring and begin token for which nothing is exported |
| `TokenRanges.RoutingAgrees` | apache-cassandra-3.11.1/pylib/cqlshlib/copyutil.py:2184-2203 | import's binary search and export's ranges choose the same ring entry iff the token is not itself a ring token other than the minimum, and does not lie below a minimum that is on the ring |
| `TokenRanges.RingTokenDisagrees` | apache-cassandra-3.11.1/pylib/cqlshlib/copyutil.py:2200-2203 | a ring token that export and import send to different entries |
| `ExportWriter.LinesRoundTrip` | apache-cassandra-3.11.1/pylib/cqlshlib/copyutil.py:607-608 | splitting a block at newlines and dropping empty pieces gives back its lines |
| `ExportWriter.PackAdd` | apache-cassandra-3.11.1/pylib/cqlshlib/copyutil.py:608-613 | one more row goes to the last file, or to a new file exactly when that is full |
| `ExportWriter.PackUnique` | apache-cassandra-3.11.1/pylib/cqlshlib/copyutil.py:598-617 | full files and one last file with the rest is the only such division, so it does not depend on the blocks |
| `ExportWriter.WritesPacked` | apache-cassandra-3.11.1/pylib/cqlshlib/copyutil.py:598-617 | after any blocks that hold as many lines as they say, the text of all files is the header plus all rows packed in order, and num_written is the size of the last file |
| `ExportWriter.WriteText` | apache-cassandra-3.11.1/pylib/cqlshlib/copyutil.py:590-617 | whatever the data and the counts are, the files one after the other hold all text in order, except that empty lines are dropped where files are changed within a block |
| `ExportWriter.ExtraLines` | apache-cassandra-3.11.1/pylib/cqlshlib/copyutil.py:604-614 | a block with more lines than rows is spread by lines, and num_written then falls short of the lines in the last file by the number of extra lines |
| `ExportWriter.RowCutInTwo` | apache-cassandra-3.11.1/pylib/cqlshlib/copyutil.py:604-614 | a row with a newline inside that is cut across two files |
| `ExportWriter.Writer.Write` | apache-cassandra-3.11.1/pylib/cqlshlib/copyutil.py:590-617 | for every data and count the fields after a write are those of WriteBlock |
| `ExportWriter.Writer.WriteLines` | apache-cassandra-3.11.1/pylib/cqlshlib/copyutil.py:605-612 | the loop changes file exactly when the room is used up and returns the index of the last change |
| `FilesReader.ReadUpToDelivers` | apache-cassandra-3.11.1/pylib/cqlshlib/copyutil.py:937-958 | a read collects the first lines that are due, at most the limit, across ends of sources and past maxrows, whether it raises or not |
| `FilesReader.ReadsDeliverWindow` | apache-cassandra-3.11.1/pylib/cqlshlib/copyutil.py:904-958 | for all sources and all read limits the rows collected are lines skiprows+1..maxrows of the header-stripped sources in order, no read exceeds min(limit, chunksize), and enough positive reads exhaust the reader; nothing is read if the first of the sources has no header to skip |
| `FilesReader.ReadsFull` | apache-cassandra-3.11.1/pylib/cqlshlib/copyutil.py:937-962 | as long as the source has them and maxrows allows them, a read takes as many lines as the lesser of its limit and the chunk size |
| `FilesReader.BodyIs` | apache-cassandra-3.11.1/pylib/cqlshlib/copyutil.py:924-925 | what is read of a file is the file without its first line if headers are skipped and there is one |
| `FilesReader.DeliveredExactly` | apache-cassandra-3.11.1/pylib/cqlshlib/copyutil.py:924-956 | when reading is over, all wanted lines have been delivered iff every read that came upon a source without a header had collected nothing yet |
| `FilesReader.NothingLost` | apache-cassandra-3.11.1/pylib/cqlshlib/copyutil.py:924-956 | with a header line in every source everything collected is delivered |
| `FilesReader.EmptyFileLosesRow` | apache-cassandra-3.11.1/pylib/cqlshlib/copyutil.py:924-956 | three sources, the second of them empty, of which a row is lost |
| `FilesReader.ReaderObject.Read` | apache-cassandra-3.11.1/pylib/cqlshlib/copyutil.py:937-958 | the loop with its early exits and exceptions computes ReadRows on the reader's fields |
| `CqlText.ShownPlain` | apache-cassandra-3.11.1/pylib/cqlshlib/formatting.py:467-478 | a printed text is the text itself iff it has no backslash and no control character |
| `CqlText.ShowCharExact` | apache-cassandra-3.11.1/pylib/cqlshlib/formatting.py:36-45 | a backslash is doubled, tab, newline and return have letters, other control characters show their code in two hexadecimal digits, everything else shows as itself |
| `CqlText.StripExact` | apache-cassandra-3.11.1/pylib/cqlshlib/cql3handling.py:110-117 | stripping takes off white space on both sides and nothing else |
| `CqlText.QuotingRoundTrip` | apache-cassandra-3.11.1/pylib/cqlshlib/cql3handling.py:82-117 | dequote_value undoes escape_value on every text |
| `CqlText.DequoteOdd` | apache-cassandra-3.11.1/pylib/cqlshlib/cql3handling.py:110-117 | a single quote by itself reads as nothing, and a quote on one side only is kept |
| `CqlText.UndoubledEscaped` | apache-cassandra-3.11.1/pylib/cqlshlib/cql3handling.py:110-117 | dequoting undoes the doubling of quotes in a printed text |
| `CqlText.IntRoundTrip` | apache-cassandra-3.11.1/pylib/cqlshlib/copyutil.py:1882-1889 | reading a printed integer gives it back |
| `CqlText.NumberLooks` | apache-cassandra-3.11.1/pylib/cqlshlib/formatting.py:309-314 | printed integers have a sign only if negative and no leading zeros |
| `CqlText.PlusSign` | apache-cassandra-3.11.1/pylib/cqlshlib/copyutil.py:1882-1889 | a number may be read with a plus sign in front |
| `CqlText.SplitJoined` | apache-cassandra-3.11.1/pylib/cqlshlib/copyutil.py:1904-1949 | splitting a printed collection gives its parts back whatever brackets, quotes and separators they contain |
| `CqlText.SplitPair` | apache-cassandra-3.11.1/pylib/cqlshlib/copyutil.py:2009-2017 | splitting key: value between braces at the colon gives key and value |
| `CqlText.SplitScan` | apache-cassandra-3.11.1/pylib/cqlshlib/copyutil.py:1931-1949 | the scanning loop with last, level and quote computes Split, including the error and the dropped empty last piece |
| `CqlLiterals.LitNeutral` | apache-cassandra-3.11.1/pylib/cqlshlib/formatting.py:484-492 | a printed value, nested to any depth, leaves bracket depth and quoting as it found them and is not cut inside |
| `CqlLiterals.CollLooks` | apache-cassandra-3.11.1/pylib/cqlshlib/formatting.py:484-529 | lists, sets and tuples print their elements with comma and space between [ ], { } and ( ) |
| `CqlLiterals.MapLooks` | apache-cassandra-3.11.1/pylib/cqlshlib/formatting.py:531-553 | maps print their entries as key: value between braces |
| `CqlLiterals.UserLooks` | apache-cassandra-3.11.1/pylib/cqlshlib/formatting.py:557-577 | user types print their fields as name: value between braces |
| `CqlLiterals.ConvertLit` | apache-cassandra-3.11.1/pylib/cqlshlib/copyutil.py:1858-1868 | reading a printed value with legible field names gives exactly: text as shown, an error where a mandatory component reads as the null marker or a user type has a name that is not permitted, null where an optional component reads as the null marker, user types in declared order |
| `CqlLiterals.ConvertLegible` | apache-cassandra-3.11.1/pylib/cqlshlib/copyutil.py:2019-2033 | whatever text is read, a value that comes out has only names that would be printed as they are read |
| `CqlLiterals.LiteralRoundTrip` | apache-cassandra-3.11.1/pylib/cqlshlib/copyutil.py:1997-2033 | a printed list, tuple, set, map or user type is read back as the same value iff its texts are plain, no component reads as the null marker, and its user types have permitted names, are complete and in declared order |
| `CqlLiterals.TextsLost` | apache-cassandra-3.11.1/pylib/cqlshlib/copyutil.py:1858-1868 | an empty text in a list is refused under the default null marker, and a backslash comes back twice |
| `CqlLiterals.NameRefused` | apache-cassandra-3.11.1/pylib/cqlshlib/copyutil.py:2032-2033 | a user type is refused, whatever the text, if its name or a field name is no identifier or is a Python keyword, or a field name starts with an underscore or comes twice |
| `CqlLiterals.NamesExact` | apache-cassandra-3.11.1/pylib/cqlshlib/copyutil.py:2032-2033 | the checks made name by name, with the names already seen, pass exactly if type name and field names are identifiers that are no keywords, no field name starts with an underscore and no two are equal |
| `CqlLiterals.KeywordRefused` | apache-cassandra-3.11.1/pylib/cqlshlib/copyutil.py:2032-2033 | every value of a user type with a field called class is lost |
| `CqlLiterals.FieldOrderIrrelevant` | apache-cassandra-3.11.1/pylib/cqlshlib/copyutil.py:2019-2033 | the same user type fields printed in any order are read as the same value |
| `TypeStrings.SubStringsShown` | apache-cassandra-3.11.1/pylib/cqlshlib/formatting.py:179-200 | the arguments of a printed composite are found again, unless there is a single one of one character |
| `TypeStrings.SplitSubTypes` | apache-cassandra-3.11.1/pylib/cqlshlib/formatting.py:185-198 | the scanning loop with last and level computes SubStrings |
| `TypeStrings.ParseShown` | apache-cassandra-3.11.1/pylib/cqlshlib/formatting.py:150-172 | with an acyclic user type table parsing a printed type terminates with its meaning, user types opened and frozen<> erased |
| `TypeCycles.ParseReturns` | apache-cassandra-3.11.1/pylib/cqlshlib/formatting.py:150-172 | parsing returns with some fuel iff the user types it opens nest no deeper than the fuel |
| `TypeCycles.ParseReturnsExactly` | apache-cassandra-3.11.1/pylib/cqlshlib/formatting.py:150-172 | parsing a printed type never returns if it leads to a user type that leads back to itself, and otherwise always returns |
| `TypeStrings.TypeRoundTrip` | apache-cassandra-3.11.1/pylib/cqlshlib/formatting.py:150-200 | the result is the whole type iff no composite has a single argument printed as one character |
| `TypeStrings.LongNamesLossFree` | apache-cassandra-3.11.1/pylib/cqlshlib/formatting.py:197-198 | names of two characters or more are enough for that |
| `TypeStrings.OneCharacterArgument` | apache-cassandra-3.11.1/pylib/cqlshlib/formatting.py:197-198 | the argument of list<a> is lost |
| `Vints.DecodeLoop` | apache-cassandra-3.11.1/pylib/cqlshlib/formatting.py:435-455 | the loop over the buffer computes DecodeUnsigned, including buffers that end too early |
| `Vints.LeadingOnes` | apache-cassandra-3.11.1/pylib/cqlshlib/formatting.py:458-459 | the bit length of the inverted first byte counts its leading ones, and masking leaves the value bits |
| `Vints.DecodeEncodeWith` | apache-cassandra-3.11.1/pylib/cqlshlib/formatting.py:435-455 | a value encoded with k extra bytes is decoded to itself, consuming exactly 1 + k bytes |
| `Vints.UnsignedRoundTrip` | apache-cassandra-3.11.1/pylib/cqlshlib/formatting.py:435-459 | decoding inverts the shortest encoding for every value below 2^64 |
| `Vints.ZigZagBijection` | apache-cassandra-3.11.1/pylib/cqlshlib/formatting.py:462-463 | zig-zag decoding is one-to-one from [0, 2^64) onto [-2^63, 2^63) |
| `Vints.VintRoundTrip` | apache-cassandra-3.11.1/pylib/cqlshlib/formatting.py:431-463 | decode_vint inverts the encoding of every 64-bit signed value |
| `Durations.PartsSum` | apache-cassandra-3.11.1/pylib/cqlshlib/formatting.py:402-428 | the printed counts add up to months, days and nanoseconds, each in its own group |
| `Durations.CarryLimits` | apache-cassandra-3.11.1/pylib/cqlshlib/formatting.py:422-428 | no printed count is zero and every unit but the largest of its group stays below its carry limit |
| `Durations.DurationShown` | apache-cassandra-3.11.1/pylib/cqlshlib/formatting.py:402-428 | a duration given by years, months below 12, days, hours, minutes and seconds below 60, and milli-, micro- and nanoseconds below 1000 prints these counts in this order with y, mo, d, h, m, s, ms, us, ns, zeros left out, and one minus sign in front if they are negative |
| `Durations.DurationRoundTrip` | apache-cassandra-3.11.1/pylib/cqlshlib/formatting.py:402-428 | the text determines the duration iff months, days and nanoseconds have one sign |
| `Durations.PrintAlike` | apache-cassandra-3.11.1/pylib/cqlshlib/formatting.py:402-428 | two durations print alike iff they agree up to the signs of their counts, so same-signed ones never do unless equal |
| `Durations.MixedSignsCollide` | apache-cassandra-3.11.1/pylib/cqlshlib/formatting.py:404-405 | two different durations with the same text |
| `Durations.Builder.Append` | apache-cassandra-3.11.1/pylib/cqlshlib/formatting.py:422-428 | append adds one unit's count, or nothing, and leaves the rest for the smaller units |
| `Durations.DurationAsStr` | apache-cassandra-3.11.1/pylib/cqlshlib/formatting.py:402-419 | the calls of append in order print DurationText |
| `StatementSplitter.MassageTokens` | apache-cassandra-3.11.1/pylib/cqlshlib/cqlhandling.py:92-130 | the loop over tokens computes Massage: newlines dropped, or turned into end tokens where the command ends at a newline |
| `StatementSplitter.MassageKeepsTokens` | apache-cassandra-3.11.1/pylib/cqlshlib/cqlhandling.py:92-130 | only newline tokens are dropped or retyped, every other token is kept in order, and no newline token is left |
| `StatementSplitter.NewlinesExact` | apache-cassandra-3.11.1/pylib/cqlshlib/cqlhandling.py:92-130 | token by token: a newline becomes an end token iff the statement so far starts with one of the commands that end with a newline, in any ASCII case, and is dropped otherwise; every other token is kept |
| `StatementSplitter.SplitUnique` | apache-cassandra-3.11.1/pylib/cqlshlib/util.py:48-66 | split_list cuts after every element satisfying the predicate and nowhere else, and that is the only such list |
| `StatementSplitter.SplitListLoop` | apache-cassandra-3.11.1/pylib/cqlshlib/util.py:59-66 | the loop that appends to the current sublist computes that list |
| `StatementSplitter.GroupsAreBatches` | apache-cassandra-3.11.1/pylib/cqlshlib/cqlhandling.py:147-157 | every statement handed out is one command or one BEGIN..APPLY BATCH group, in order and complete; only the last may be an open batch, and the flag says so |
| `StatementSplitter.BatchIsOneStatement` | apache-cassandra-3.11.1/pylib/cqlshlib/cqlhandling.py:147-157 | BEGIN in any letter case, any pieces not ending in APPLY and two more tokens, and APPLY in any letter case are one statement; without the last piece it is one statement still open |
| `StatementSplitter.PieceIsOneStatement` | apache-cassandra-3.11.1/pylib/cqlshlib/cqlhandling.py:147-157 | any other piece is a statement by itself |
| `StatementSplitter.EscapedExact` | apache-cassandra-3.11.1/pylib/cqlshlib/cqlhandling.py:144-157 | the flag is set iff a piece begins a batch and none behind it applies it, or exactly one token is an unclosed string |
| `StatementSplitter.StatementsKeepTokens` | apache-cassandra-3.11.1/pylib/cqlshlib/cqlhandling.py:140-157 | joining the statements gives the massaged tokens: nothing lost or reordered |
| `StatementSplitter.StatementsJoin` | apache-cassandra-3.11.1/pylib/cqlshlib/cqlhandling.py:140-157 | tokens that leave nothing open do not influence how later tokens are cut |
| `StatementSplitter.SplitStatements` | apache-cassandra-3.11.1/pylib/cqlshlib/cqlhandling.py:140-157 | the loops compute the statements and the flag for an open batch or string |
| `ShellLoop.CompleteJoins` | apache-cassandra-3.11.1/bin/cqlsh.py:911-925 | tokens judged complete contribute exactly the executed statements to any continuation |
| `ShellLoop.JudgeExact` | apache-cassandra-3.11.1/bin/cqlsh.py:891-925 | text is executed, all its statements, iff nothing is left after massaging or an end token is last and neither a batch nor a string is open; otherwise the shell waits for more |
| `ShellLoop.InterruptForgets` | apache-cassandra-3.11.1/bin/cqlsh.py:885-889 | an interrupt forgets the pending text and nothing else |
| `ShellLoop.ChunkingIrrelevant` | apache-cassandra-3.11.1/bin/cqlsh.py:866-925 | for every division of the input into lines, statements executed so far followed by the split of the pending buffer are the split of the whole input |
| `ShellLoop.DivisionsAgree` | apache-cassandra-3.11.1/bin/cqlsh.py:866-925 | two divisions of the same input execute the same statements, up to what waits in the buffers |
| `ShellLoop.ErrorsExact` | apache-cassandra-3.11.1/bin/cqlsh.py:891-910 | feeding lines reports no error iff every buffer accumulated from them lexes |
| `ShellLoop.CharLexerCompositional` | apache-cassandra-3.11.1/bin/cqlsh.py:891-898 | the hypothesis about the lexer can be met: a lexer that makes a token of every character meets it |
| `ShellLoop.EndOfFileExecutesNothing` | apache-cassandra-3.11.1/bin/cqlsh.py:927-934 | after any session the end of the file executes nothing and reports an error iff an unfinished statement is pending |
| `ShellLoop.ShellObject.DoOneCmd` | apache-cassandra-3.11.1/bin/cqlsh.py:891-925 | executes exactly the complete statements, or reports the lexing error, or asks for more |
| `ShellLoop.ShellObject.CmdLoop` | apache-cassandra-3.11.1/bin/cqlsh.py:866-934 | reading the lines and then the end of the file leaves the state of the model |
| `Deferred.RunRefines` | apache-cassandra-3.11.1/doc/html/_static/jquery.js:3140-3264 | the two callback lists with their indices refine a promise that is settled once, whatever is called from inside or outside handlers |
| `Deferred.RegisterBusy` | apache-cassandra-3.11.1/doc/html/_static/jquery.js:3169-3190 | handlers added from inside a running handler are run by the loop already running |
| `Deferred.RegisterLate` | apache-cassandra-3.11.1/doc/html/_static/jquery.js:3187-3197 | handlers added after the fact run at once with the remembered arguments |
| `Deferred.SettleRefines` | apache-cassandra-3.11.1/doc/html/_static/jquery.js:3253-3264 | the first fire settles the state and disables the other list before any user handler runs; later fires do nothing |
| `Deferred.DeferredHonoursFirst` | apache-cassandra-3.11.1/doc/html/_static/jquery.js:3282-3366 | for every sequence of calls: the first settlement decides the state; only its side's handlers run, in registration order, with its arguments; when none is running all have run |
| `Deferred.SettledForGood` | apache-cassandra-3.11.1/doc/html/_static/jquery.js:3282-3366 | once settled the state never changes, and no call is taken back |
| `Deferred.EveryWinnerRuns` | apache-cassandra-3.11.1/doc/html/_static/jquery.js:3115-3277 | every handler of the winning side, registered before, during or after, runs exactly once |
| `Deferred.CallbackList.PushAll` | apache-cassandra-3.11.1/doc/html/_static/jquery.js:3172-3185 | the pushes append the handlers in order |
| `Deferred.DeferredObject.Resume` | apache-cassandra-3.11.1/doc/html/_static/jquery.js:3140-3167 | the firing loop runs the deferred's own callbacks and stops at the next user handler or at the end |
| `Deferred.DeferredObject.AddHandlers` | apache-cassandra-3.11.1/doc/html/_static/jquery.js:3169-3197 | done and fail on the object's fields are Register steps |
| `Deferred.DeferredObject.SettleWith` | apache-cassandra-3.11.1/doc/html/_static/jquery.js:3253-3264 | resolve and reject on the object's fields are Settle steps |

## Left out

- `extract_orig`, debugging and the lexer patterns of word_match; a binding holds the tokens matched rather than their text, and a name used both as a symbol and as a collector, which raises in the source, is not modelled.
- RuleCompiler.ReadRuleTokensUntil: a JUNK token inside a rule body is an error in the model, where the source pushes the raw token, which no matcher can run.
- TypeStrings.ParseShown: the formatter chosen for a type is reduced to whether it is the user type formatter, and newlines in type strings are not modelled.
- CqlLiterals.LiteralRoundTrip: integers, texts and composites of them only, integers without a thousands separator.
- CqlLiterals.ConvertLit: legible field names only; a name with an unmatched bracket or quote disturbs the split of whatever surrounds it, so what comes out then is not described, except that it is never the value printed.
- CqlLiterals.LitNeutral: legible field names only, for the same reason.
- CqlLiterals.FieldOrderIrrelevant: legible field names only, for the same reason.
- ShellLoop.ChunkingIrrelevant: a buffer that does not lex is discarded, so the statement is about stretches of lines whose buffers lex. Positions of tokens in the text are not modelled.
- Prompts, history, KeyboardInterrupt inside statements and the execution of statements.
- Deferred: notify and progress, then, always and when, `remove`, `unique` and `stopOnFalse`.
- The rate meters' clock, process death, pipes, locks, sleeping and timeouts of COPY; they are steps that may or may not come.
- PipeReader, whose count of skipped rows differs from FilesReader's.
- escape_name and dequote_name, which use different quote characters and are not inverses.
- Floating point, date and time formatting, colours and display widths.
- Completers of the CQL grammar, help topics, tracing, SSL settings and option parsing.
- The rest of jquery.js, the other scripts, and the Java classes, which hold configuration only.
