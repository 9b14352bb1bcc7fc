# Heimdall bootstrap, configuration and hashing core in Dafny

This project models three parts of the Heimdall repository and proves properties about them.

- **Coordinator bootstrap state machine** (`server/src/main.c`, `server/include/fsm.h`). This covers:
  - the framework state ids and the application states;
  - the transition table of (from, to, handler) triples;
  - every state handler, including the polling loop and the cleanup handler;
  - the caller-owned error record and its helpers;
  - the table-driven driver that `main` starts.

  `fsm_run` has no body in the repository. The driver is modelled as the loop its table implies: look up the (from, to) pair, run that entry's handler, then continue from `to` to the id the handler returned. The run stops when FSM_EXIT is entered. A pair with no entry, or an entry with a NULL handler, ends the run as `NoTransition`. Every table entry moves to a state of lower `Rank`, so every run ends.
- **Agent configuration parser** (`src/parser.c`). The parser collects entries in an array that doubles when full. It starts with the nineteen built-in entries, in order. It then adds one entry per user line that passes these steps:
  - the comment and length filter;
  - the newline cut;
  - the `sscanf(" %[^,], %c, %c")` split, with the path conversion given the width `%4095[^,]` that `char path[PATH_MAX]` needs (see Findings); the width-less split as written is modelled separately, by `Parser.ScanAsWritten`;
  - the two character-to-enum switches.

  The array, its count and its capacity are a class whose methods update them in place. The user's file is a sequence of lines, or `None` when it cannot be opened.
- **Agent hashing helpers** (`src/hashing.c`):
  - the lower-case hex encoder of digests, with its round trip;
  - the exclusion scan over `fnmatch` patterns;
  - the `strcmp` order of a directory walk, and the walk's choice of what feeds the directory digest;
  - the dispatch of every configured entry to the hasher its level names.

  Digests, `fnmatch` and `stat` are function parameters.

Files:
- `wrappers.dfy` holds `Option`.
- `config.dfy` holds the shared constants and types: `hash_level_t`, `alert_level_t`, `config_entry_t`, `PATH_MAX`, `HASH_HEX_LEN`.
- `fsm.dfy` models `fsm.h`.
- `server.dfy` models `main.c`.
- `parser.dfy` models `parser.c`.
- `hashing.dfy` models `hashing.c`.

Two facts of the code shape the model:
- `main` calls `fsm_run` and then returns 0 whatever the run did (server/src/main.c:83-85), so a failed bootstrap step still exits with status 0.
- A failed signal installation does not reach the error state. See Findings.

## Model

| member | source | states |
|---|---|---|
| Server.ApplicationStatesAreUserIds | server/src/main.c:8-22 | the twelve application states are pairwise distinct, start at FSM_USER_START, and never equal FSM_IGNORE, FSM_INIT or FSM_EXIT |
| Server.Lookup | server/include/fsm.h:96-101 | a found handler belongs to an entry (from, to, handler) of the table; None only when no entry has that (from, to) pair |
| Server.LookupFrom | server/include/fsm.h:96-101 | the scan from position i finds an entry of the table with the pair, or none exists at or after i |
| Server.LookupConsistent | server/src/main.c:58-81 | in a table whose entries run the handler of the state they enter, lookup succeeds iff the table covers the pair; the handler found is the entered state's own; it is non-NULL unless the pair enters FSM_EXIT |
| Server.HandlerServesItsState | server/src/main.c:58-81 | each handler is the handler of the state it serves, and only the NULL handler serves FSM_EXIT |
| Server.DeclaredEntries | server/src/main.c:58-81 | the table `main` declares holds exactly the 22 declared entries |
| Server.CorrectedEntries | server/src/main.c:58-81 | the corrected table holds exactly the declared entries plus STATE_SETUP_SIGNAL to STATE_ERROR |
| Server.DeclaredEntryOrdered | server/src/main.c:58-81 | every declared entry, and the added route, moves to a state of smaller rank and runs the handler of the state it enters |
| Server.DeclaredOutcomesCovered | server/src/main.c:71-79 | a table holding the declared entries has an entry for every id a declared entry's handler can return, except a failing signal setup |
| Server.DeclaredTableGap | server/src/main.c:71-79 | any table with exactly the declared entries is rank-ordered and consistent, and covers every handler outcome except SetupSignal returning STATE_ERROR; that outcome is possible and uncovered, so the table is not closed |
| Server.CorrectedTableClosed | server/src/main.c:58-81 | any table with the declared entries plus the added route is well formed: rank-ordered, consistent and closed under every handler outcome |
| Server.AsWrittenTableGap | server/src/main.c:71-79 | the declared table lacks an entry from STATE_SETUP_SIGNAL to STATE_ERROR and is not closed |
| Server.CorrectedTableWellFormed | server/src/main.c:58-81 | the corrected table is well formed and covers the first pair (FSM_INIT, FSM_USER_START) |
| Server.InitialState | server/src/main.c:43-51 | the run starts with index 0, found 0, no queue, queue_len 0, total_secs 0, empty password, no client table, socket 0, interrupt flag clear and nothing released |
| Server.CleanupReleasesExactly | server/src/main.c:236-253 | cleanup closes the socket iff its descriptor is nonzero, and only that descriptor; it frees the queue iff it was allocated; it always closes the clients and frees the client states |
| Server.Poll | server/src/main.c:200-210 | the polling loop keeps the socket and the releases, and leaves the cracking context and client states as its last call left them; it returns STATE_STOP_TIMER only when the interrupt flag or `found` is set, or STATE_ERROR; it runs out of script only while neither is set |
| Server.PollCalls | server/src/main.c:200-208 | the loop makes no more calls than the script holds |
| Server.PollFailsOnFirstError | server/src/main.c:200-210 | every call before the last succeeded; the loop returns STATE_ERROR iff its last call failed; any other outcome follows only successful calls |
| Server.HandlerResults | server/src/main.c:88-192 | each bootstrap handler returns STATE_ERROR iff its collaborator fails, and its one fixed successor otherwise; the timer, error and cleanup handlers always return their successor (error to STATE_CLEANUP, cleanup to FSM_EXIT), so the START_TIMER and STOP_TIMER error entries are never taken |
| Server.Handle | server/src/main.c:88-264 | a handler returns only its successor, or STATE_ERROR for a handler whose collaborator can fail; every handler except the polling loop always returns an id |
| Server.HandleKeepsReleases | server/src/main.c:88-228 | only cleanup releases resources, and only socket creation changes the socket descriptor |
| Server.WellFormedRunsClean | server/src/main.c:69-80 | over a well-formed table, from any covered pair, a run never meets an uncovered pair; if it exits it entered STATE_CLEANUP once, as its last state, released the cleanup resources once and cleared the error record; every STATE_ERROR is followed by STATE_CLEANUP; a run still polling released nothing |
| Server.RunFrom | server/include/fsm.h:132-133 | the driver loop `fsm_run` implies from the table: a run stops on a pair only when the table has no entry for it or the entry's handler is NULL; a run that starts on a pair entering a state other than FSM_EXIT, and does not stop on an uncovered pair, has entered at least one state |
| Server.Execute | server/src/main.c:83 | a whole run starts from the pair (FSM_INIT, FSM_USER_START); its outcomes over a well-formed table are stated by `Server.WellFormedRunsClean` and `Server.CleanExecution` |
| Server.RunStep | server/src/main.c:83 | one driver step through a table entry runs that entry's handler and continues from the state it returns |
| Server.Prepend | server/src/main.c:83 | prefixing states to a run keeps its end, state and error record |
| Server.DeclaredChainPresent | server/src/main.c:59-69 | both tables hold the bootstrap chain and its exit, rank-ordered and consistent |
| Server.ArgumentsRun | server/src/main.c:88-123 | when the three argument handlers succeed, the run enters their states and continues at socket creation with nothing changed |
| Server.SocketRun | server/src/main.c:125-163 | when creation, binding and listening succeed, the run enters their states and continues at signal setup holding the new descriptor |
| Server.ServingRun | server/src/main.c:165-228 | when signal setup succeeds and polling stops normally, the run enters the remaining chain states and exits |
| Server.PollingRun | server/src/main.c:194-256 | when polling stops normally, the run enters STATE_START_POLLING, STATE_STOP_TIMER and STATE_CLEANUP and exits |
| Server.SuccessPath | server/src/main.c:59-69 | when every step succeeds, the corrected table's run visits PARSE_ARGUMENTS through CLEANUP in chain order and ends in FSM_EXIT |
| Server.ChainRun | server/src/main.c:59-69 | the success path holds for any table holding the chain |
| Server.SignalFailureStrandsRun | server/src/main.c:174-178 | with the declared table, a failing `sigaction` after a successful bootstrap leaves the run on the uncovered pair (STATE_SETUP_SIGNAL, STATE_ERROR); it never reaches error or cleanup and releases nothing |
| Server.StrandedRun | server/src/main.c:174-178 | the same for any table holding the chain but no SETUP_SIGNAL to ERROR entry |
| Server.StartPollingHandler | server/src/main.c:194-211 | the loop method computes exactly `Poll` over its script from the state the flag leaves at entry |
| Server.PerformHandler | server/src/main.c:88-264 | running a handler against the caller's error record yields the handler's id and state, and leaves the record as the handler specifies: raised by a failing signal setup, cleared by cleanup |
| Server.FsmRun | server/src/main.c:83 | the driver loop yields the run the table defines, and the error record ends as that run leaves it |
| Server.ServerMain | server/src/main.c:40-86 | with the record initialised by `fsm_error_init` before the driver runs: `main` returns 0 on every path; the run ends exited or still polling, never stranded; an exited run entered STATE_CLEANUP exactly once, as its last state, released exactly the cleanup resources and cleared the record; every STATE_ERROR is followed by STATE_CLEANUP |
| Server.UninitialisedRecordReachesCleanup | server/src/main.c:40-85 | with the declared table and a successful bootstrap that stops polling normally, the run reaches (STATE_STOP_TIMER, STATE_CLEANUP) holding exactly the record `main` passed in, never initialised, so the cleanup handler's `fsm_error_clear` frees whatever its message pointer held |
| Server.RecordReachesCleanup | server/src/main.c:58-83 | the same for any table holding the bootstrap chain |
| Server.SignalToStopTimer | server/src/main.c:165-228 | from signal setup, with `sigaction` succeeding and polling stopping normally, the run enters the signal, timer, polling and stop-timer states and reaches the cleanup pair with the record unchanged |
| Server.CleanExecution | server/src/main.c:58-83 | a whole run over a well-formed table covering the first pair is clean |
| Fsm.StrdupOrNull | server/include/fsm.h:124-130 | NULL iff the input is NULL; otherwise a copy equal to the input |
| Fsm.FsmError.constructor | server/src/main.c:42 | the record starts with whatever its storage held and is not initialised; `main` never initialises it |
| Fsm.ErrorInit | server/include/fsm.h:103-111 | on a non-NULL record every field is reset and the record counts as initialised; on NULL nothing can change |
| Fsm.ErrorClear | server/include/fsm.h:113-122 | requires an initialised record, since it frees the message pointer; on a non-NULL record it reaches the same cleared record as init, independent of the old record, so clearing twice equals clearing once; on NULL nothing changes |
| Fsm.SetError | server/include/fsm.h:135-146 | requires an initialised record, since it frees the old message; on a non-NULL record: a copy of the message, the raising line, function and file, whatever the old record held; on NULL nothing changes |
| Parser.DefaultsShape | src/parser.c:19-39 | there are nineteen defaults, the agent's configuration file first |
| Parser.CapacityAfterBounds | src/parser.c:45-49 | doubling before each append keeps room for every entry; the capacity grows only when needed, and then stays below twice the count |
| Parser.DefaultsCapacity | src/parser.c:43-49 | from capacity 8, the nineteen defaults leave capacity 32 |
| Parser.TextBeforeCuts | src/parser.c:70-73 | the text before a stop character is the longest prefix without it |
| Parser.SkipSpace | src/parser.c:78 | skipping white space stays inside the line |
| Parser.SkipSpaceSkips | src/parser.c:78 | skipping passes only white space and stops at the end or at a non-space |
| Parser.FieldEnd | src/parser.c:78 | a `%[^,]` conversion stays inside the line |
| Parser.FieldEndStops | src/parser.c:78 | the conversion passes only non-commas, at most `width` of them, and stops at the end, at a comma, or when the width runs out |
| Parser.SkipSpaceStopsAt | src/parser.c:78 | skipping from i stops at the first non-space j |
| Parser.FieldEndStopsAt | src/parser.c:78 | the conversion stops at the first comma when the width allows it |
| Parser.ScanAt | src/parser.c:78 | the scan accepts a line whose spaces, path, commas and characters sit at given positions, with the fields those positions delimit |
| Parser.ScanAcceptsLayout | src/parser.c:78-82 | every line of the form: spaces, non-empty comma-free path, comma, spaces, level, comma, spaces, alert, anything, is accepted with exactly those fields when the path fits the width |
| Parser.ScanFindsLayout | src/parser.c:78-82 | every accepted line has that form around exactly the returned fields, and its path fits the width |
| Parser.LayoutAt | src/parser.c:78 | positions with the scan's properties cut the line into that form |
| Parser.OverlongPathAsWritten | src/parser.c:67-78 | a 4096-character path line fits the fgets buffer of PATH_MAX + 16, and the width-less scan accepts it: 4097 bytes for `char path[PATH_MAX]` |
| Parser.ScanBoundsPath | src/parser.c:75-78 | the width-limited scan never yields a path longer than PATH_MAX - 1, and rejects that line |
| Parser.LevelOf | src/parser.c:99-107 | the level switch accepts exactly 'd', 'f' and 'l' |
| Parser.AlertOf | src/parser.c:109-117 | the alert switch accepts exactly 'r', 'y' and 'g' |
| Parser.CharsMapExactly | src/parser.c:99-117 | 'd'/'f'/'l' map to DIR/FILE/LINE and 'r'/'y'/'g' to RED/YELLOW/GREEN, one character per value in both directions; only those characters map |
| Parser.StoredPath | src/parser.c:96-97 | the stored path is a prefix of at most PATH_MAX - 1 characters, and the whole path when it fits |
| Parser.EntryOf | src/parser.c:96-119 | a scanned line yields an entry iff both characters are known, and then the stored path with the mapped level and alert |
| Parser.LoadKeepsRoom | src/parser.c:84-94 | loading never shrinks the array and leaves room for every entry it holds |
| Parser.ParseLine | src/parser.c:68-119 | what one `fgets` line contributes; `Parser.ParseLineBounds`, `Parser.ParseLineOf` and `Parser.ConfigLineRoundTrip` state its contract |
| Parser.ParseLineBounds | src/parser.c:70-82 | an accepted line passed the filter, and its path is non-empty, comma-free and shorter than PATH_MAX |
| Parser.ParseLineOf | src/parser.c:70-119 | a filtered, scanned line contributes the entry its fields describe, if any |
| Parser.ConfigLineRoundTrip | src/parser.c:68-119 | reading back a line written as `path, l, a` gives the entry, for every path a file can hold |
| Parser.FormattedLineScans | src/parser.c:78-82 | the text of a line written as `path, l, a` scans into exactly that path and those characters |
| Parser.TextBeforeStops | src/parser.c:70-73 | the cut keeps text without the stop character and drops what follows it |
| Parser.FormatAllRoundTrip | src/parser.c:68-120 | loading a file written from writable entries gives exactly those entries, in order |
| Parser.FilteredLinesSkipped | src/parser.c:70-71 | a comment line, or one under three characters counting its newline, contributes nothing and never reaches the growth test |
| Parser.UnknownCharsRejected | src/parser.c:99-117 | a scanned line with an unknown level or alert contributes nothing, although the growth test has run for it |
| Parser.ConfigTable.constructor | src/parser.c:127-130 | a fresh array of capacity 8 holding nothing |
| Parser.ConfigTable.Reserve | src/parser.c:45-49 | when full, capacity doubles; contents are kept and there is room for one more |
| Parser.ConfigTable.AddDefaultEntries | src/parser.c:12-56 | the contents become the old contents followed by the nineteen defaults, in order; capacity is as doubling leaves it |
| Parser.ConfigTable.AppendAll | src/parser.c:43-55 | the contents become the old contents followed by the items, in order |
| Parser.ConfigTable.Append | src/parser.c:45-54 | one growth test, then the entry is added after the old contents |
| Parser.ConfigTable.Store | src/parser.c:84-119 | one growth test; the count advances iff both characters are known, and then the entry is appended; a rejected line's partial write stays beyond the count |
| Parser.ConfigTable.LoadLine | src/parser.c:68-120 | one fgets line adds the entry it describes, or nothing; the growth test runs iff the line passed the filter and the scan |
| Parser.ConfigTable.LoadUserConfig | src/parser.c:58-123 | with no file nothing changes; otherwise the contents become the old contents followed by the accepted lines' entries in file order, and the capacity is as the per-line growth tests leave it |
| Parser.LineStep | src/parser.c:68-120 | one more line extends the accepted entries and the capacity by that line alone |
| Parser.ParseConfig | src/parser.c:125-139 | the first `count` entries are the defaults then the accepted user entries; count is 19 plus their number; capacity is 32 with no file, else as growth leaves it; count never exceeds capacity |
| Hashing.Hex | src/hashing.c:63-74 | the encoding is two characters per byte |
| Hashing.HexAt | src/hashing.c:66-70 | position 2i holds the digit of byte i's high nibble, and 2i + 1 the digit of its low nibble |
| Hashing.HexDigitsOnly | src/hashing.c:65 | every character of an encoding is in `0123456789abcdef` |
| Hashing.DigitValue | src/hashing.c:65 | a digit's value is a nibble |
| Hashing.DigitValueInverts | src/hashing.c:65 | reading a digit back gives its nibble, and only the sixteen digits read |
| Hashing.HexDigitReads | src/hashing.c:65 | each of the sixteen digits reads back as its nibble |
| Hashing.UnhexStep | src/hashing.c:68-69 | two more digits decode to one more byte, 16 * hi + lo |
| Hashing.UnhexHex | src/hashing.c:68-69 | reading each digit pair as 16 * hi + lo recovers the digest |
| Hashing.UnhexHexStep | src/hashing.c:66-70 | one more byte's two digits decode to that byte after the bytes already decoded |
| Hashing.HexInjective | src/hashing.c:68-69 | distinct digests give distinct strings |
| Hashing.BinaryToHex | src/hashing.c:63-74 | the first 2 * len characters are the encoding of the first len bytes; a NUL follows; nothing beyond is written; the result is 0; requires len <= SHA256_DIGEST_LENGTH |
| Hashing.IsExcluded | src/hashing.c:52-61 | the early-exit scan returns true iff some pattern matches, hence false for no patterns |
| Hashing.CompareNames | src/hashing.c:130-136 | the comparison is a sign, -1, 0 or 1 |
| Hashing.CompareNamesZero | src/hashing.c:130-136 | names compare equal iff they are equal |
| Hashing.CompareNamesFlip | src/hashing.c:130-136 | swapping the names negates the result |
| Hashing.CompareNamesTrans | src/hashing.c:130-136 | the order is transitive |
| Hashing.SortNames | src/hashing.c:153 | the `qsort` order; `Hashing.SortNamesSorted` and `Hashing.SortedUnique` state its contract |
| Hashing.SortedCons | src/hashing.c:153 | a name preceding every name of an ascending run can lead it |
| Hashing.SortedTail | src/hashing.c:153 | the rest of an ascending run is ascending, and its head precedes all of it |
| Hashing.InsertNamePermutes | src/hashing.c:153 | insertion adds exactly the one name |
| Hashing.InsertNameSorted | src/hashing.c:153 | insertion into an ascending run keeps it ascending |
| Hashing.SortNamesSorted | src/hashing.c:153 | the sorted names are ascending under `compare_names` and a permutation of the entries |
| Hashing.SortedUnique | src/hashing.c:153 | two ascending permutations of the same names are equal, so any correct sort gives the same walk order |
| Hashing.SortedHeadsAgree | src/hashing.c:153 | two ascending runs of the same names start with the same name |
| Hashing.SortedHeadLeast | src/hashing.c:153 | the head of an ascending run precedes every name in it |
| Hashing.ContributionsAppend | src/hashing.c:155-191 | the walk's inputs keep the order of the names |
| Hashing.ContributionsSound | src/hashing.c:155-191 | every input comes from a listed name whose full path no pattern excludes, and matches the kind `stat` reported |
| Hashing.ContributionsComplete | src/hashing.c:155-191 | every listed, non-excluded regular file or directory contributes its digest |
| Hashing.SortOrderFixesInputs | src/hashing.c:153-191 | any ascending order of the entries gives the same digest inputs |
| Hashing.RealNamesExactly | client/src/utils.c:83-92 | the kept names are the listed ones, each as often as listed, except "." and "..", which are dropped |
| Hashing.AllEntriesNone | client/src/utils.c:70-95 | `get_all_entries` returns NULL exactly when the directory cannot be opened or lists nothing besides "." and ".."; otherwise it returns exactly the other listed names |
| Hashing.GetAllEntries | client/src/utils.c:70-95 | the `readdir` loop yields exactly what `AllEntries` defines: None for an unopenable or empty directory, otherwise the listed names without "." and ".." |
| Hashing.DirectoryInputs | src/hashing.c:138-191 | None exactly when `get_all_entries` returns NULL, that is, the directory cannot be opened or holds nothing besides "." and ".."; otherwise the inputs of the sorted names, skipping excluded paths, failed `stat` and other kinds |
| Hashing.DoHash | src/hashing.c:242-267 | `do_hash`'s dispatch on the level; `Hashing.DoHashReports` states its contract |
| Hashing.DoHashReports | src/hashing.c:242-267 | the report names the entry's path; a line entry gives per-line hashes iff its level is LINE; a directory or file entry is hashed iff its hasher succeeds, into HASH_HEX_LEN digits that decode to the digest; each line hash decodes to that line's digest, in order |
| Hashing.IntegrityCheck | src/hashing.c:269-282 | one report per parsed entry, in order: the defaults then the accepted user entries, each as `do_hash` gives it |

## Left out

- I/O and process plumbing are not modelled: logging, `printf`, `perror` and the TRACE output. `SET_TRACE` only prints, so it has no counterpart.
- Server.Handle: the collaborators have no bodies in the repository. These are `parse_arguments`, `handle_arguments`, `convert_address`, `socket_*`, `start_listening`, `close_clients` and `polling`. They are given as success or failure results in `Collaborators`. Chunk allocation, worker sessions, liveness and the wire protocol are not part of this model.
- Server.StartPollingHandler: the sequence of `polling` calls is a finite script. A run whose script ends before a stop ends as `StillPolling`. A run that polls forever is therefore represented only by its finite prefixes.
- Server.FsmRun: `fsm_run` has no body. The driver's behaviour is inferred from the table:
  - a missing (from, to) pair or a NULL handler stops the run;
  - SET_TRACE and the error report printed by `error_handler` are left out.
- Server.ServerMain: runs the corrected table, not the table `main` declares. The declared table's behaviour is stated by `Server.SignalFailureStrandsRun`. See Findings.
- The signal handler is not modelled as a handler. `sigaction` is an input result, and the interrupt flag is an input sampled before and during the polling loop.
- Timing is left out: `clock_gettime` and the floating-point wall time in `stop_timer_handler`.
- The `worker_state`, `work_chunk` and `cracking_context` records are declared but nothing constrains them.
- Fsm.ErrorClear: the `free` itself is not modelled. Whether the record may be freed is tracked by a ghost flag set by `fsm_error_init`, and the requires demands it; the uninitialised record `main` passes is covered under Findings. Strings are values, so the fresh copy made by `fsm_strdup_or_null` is not distinguished from its input.
- Fsm.SetError: as for `Fsm.ErrorClear`, the `free` is represented only by the requirement that the record be initialised.
- Server.ServerMain: also calls `fsm_error_init` before the driver, which `main` does not. See Findings.
- Server.Poll: the client sockets, file descriptors and `max_clients` that `polling` writes are not modelled; only the cracking context and the client states are.
- Server.StartPollingHandler: as for `Server.Poll`, polling's writes to `client_sockets`, `file_descriptors` and `max_clients` are not modelled.
- Parser.ConfigTable.LoadUserConfig: the file is given as the lines `fgets` returns. `fgets` splitting a line longer than PATH_MAX + 15 characters into several pieces is not modelled. A failed `realloc` (which exits) is not modelled, and nor is allocation failure in `safe_malloc` and `safe_realloc`.
- Parser.ConfigTable.Reserve: slots beyond the count hold a placeholder entry rather than uninitialised memory. Nothing reads them.
- `count` and `capacity` are unbounded naturals. `size_t` overflow of the doubling is not modelled.
- Hashing.CompareNames: returns only the sign of `strcmp`. It compares characters as code points, which matches `strcmp`'s unsigned-char comparison for byte strings.
- Hashing.DoHashReports: the digests are abstract function parameters: `sha256_dir`, `sha256_file` and the per-line `EVP_Digest`. Their OpenSSL computation, the file metadata they hash, and `init_evp_context` are not modelled.
- Hashing.DoHash: the `default` branch of `do_hash` is unreachable, because `HashLevel` has exactly three values.
- Hashing.DirectoryInputs: each input records which path's digest feeds the directory digest, not the digest itself. Two behaviours of the C code are not captured:
  - when a nested file or directory cannot be hashed, the C code still feeds its unwritten buffer. This happens for a subdirectory that cannot be opened, and also for an empty one, since `get_all_entries` returns NULL for it and `hash_directory_sha256` then returns -1;
  - the recursion into subdirectories.
- Hashing.GetAllEntries: the directory listing is a parameter, `None` when `opendir` fails; `readdir` order is the order of that sequence. Allocation failure in `safe_realloc` and `safe_strdup` (which exit) is not modelled. `open_file` and the other `client/src/utils.c` wrappers are not part of this model.
- Parser.ParseLine: uses the width-limited scan `%4095[^,]`, not the width-less one as written (see Findings). A line whose path has 4096 or more characters is therefore rejected, where the C code would overflow `path`.
- Parser.ParseLineBounds: the bound `|path| < PATH_MAX` comes from the width-limited scan; with the scan as written, `Parser.OverlongPathAsWritten` shows a 4096-character path is accepted.
- Parser.ConfigTable.LoadLine: loads with the width-limited scan, so a line with a 4096-character path is rejected, and the truncating branch of `Parser.StoredPath` is never reached through the loader.
- Parser.ConfigTable.LoadUserConfig: as for `Parser.ConfigTable.LoadLine`, every line is scanned with `%4095[^,]`.
- Parser.ParseConfig: as for `Parser.ConfigTable.LoadLine`, every user line is scanned with `%4095[^,]`.
- Hashing.DoHash: `hash_file_lines` logs line numbers, which are represented only by the order of the line hashes. Opening a missing file there is not modelled.
- Hashing.BinaryToHex: requires `len <= SHA256_DIGEST_LENGTH`, the bound under which the writes stay inside `out_hex`. Callers pass the length OpenSSL reports.

## Findings

| source | as written | input that shows it | evidently intended | confidence | as-written member | corrected member |
|---|---|---|---|---|---|---|
| server/src/main.c:71-79 | `setup_signal_handler` returns STATE_ERROR when `sigaction` fails (line 178), but the table has no entry from STATE_SETUP_SIGNAL to STATE_ERROR | every bootstrap step succeeds and `sigaction` returns -1 | an entry `{STATE_SETUP_SIGNAL, STATE_ERROR, error_handler}`, so the error is reported and cleanup closes the socket | not executed | Server.SignalFailureStrandsRun | Server.CorrectedTableWellFormed |
| server/src/main.c:42 | `struct fsm_error err` is never initialised before `fsm_run(&context, &err, transitions)` (line 83), yet `cleanup_handler` calls `fsm_error_clear(err)` (line 246), which frees `err->err_msg` (server/include/fsm.h:117) | every bootstrap step succeeds and polling stops normally, assuming `fsm_run`, which has no body in the repository, does not initialise the record | `fsm_error_init(&err)` before `fsm_run`, so the message pointer is NULL or an owned copy when freed | not executed; depends on `fsm_run`, which has no body here | Server.UninitialisedRecordReachesCleanup | Server.ServerMain |
| src/parser.c:75-78 | `%[^,]` has no width but stores into `char path[PATH_MAX]`; the line buffer holds PATH_MAX + 16 bytes | a line of 4096 `a` characters followed by `,f,r` | `%4095[^,]`, which rejects that line | not executed | Parser.OverlongPathAsWritten | Parser.ScanBoundsPath |
