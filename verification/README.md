# spawnshell in Dafny

A model of the command interpreter in `spawnshell.c`: a small Unix shell that
reads one line at a time, cuts it into words, decides what kind of command
line it is (simple, `|`, `<`, `>`, `<` and `>`, `;`, `&&`, `||`, optionally
in the background with a trailing `&`), handles the builtins `exit`, `&` and
`?`, and starts programs with `posix_spawnp`, wiring file descriptors through
spawn file actions.

The model has two halves, as the program does.

* **Parsing** (`argv.dfy`, `tokenizer.dfy`, `parser.dfy`). `parseline` works in
  place: `Parser.ParseLine` overwrites the last character of a `char` array
  with a space, skips spaces, writes `'\0'` after each word and fills a
  128-slot array of `char *` slots (`CStr`) ended by `Null`. It is proved equal
  to the value-level `Parser.ParseSpec`: the words are `Tokenizer.Tokens`
  (the maximal runs of non-space characters), a last word starting with `&`
  sets the background flag and is dropped, and `Parser.Classify` is the
  precedence chain of `find_index` tests. `find_index`,
  `truncate_argument_list` and `split_argument_list` are loops and in-place
  writes on the slot array.
* **Dispatch** (`semantics.dfy`, `shell.dfy`, `rules.dfy`). The operating
  system is an oracle `Os`: `posix_spawnp`, `waitpid`, `pipe`,
  `posix_spawn_file_actions_addopen` and the value of an uninitialised
  variable are functions of everything the shell has done so far, recorded
  as a trace of `Event`s. Spawn file actions are a list of
  `Open`/`Dup2`/`Close` values. `eval`'s `static pid` and `status` are the
  fields of the class `SpawnShell.Shell`, whose methods (`Eval`, `ExecCmd`,
  `HandlePipe`, `SetupInputRedir`, ...) are proved to do exactly what the
  functions of `Semantics` (`EvalSpec`, `Exec`, `PipeSpec`, ...) say. The
  lemmas of `Rules` then state what a line does: which programs are
  started, with which arguments and file actions, in which order, and when
  the shell stops.

Behaviour of the code that the model keeps on purpose:

* `find_index` answers 0 both when the word is absent and when it is the
  first word, so an operator in first position does not count, and since
  the search stops at that first match it hides every later copy of the
  same operator too: `| a | b` is a simple command running the program `|`
  (`Argv.FindIndexConflatesAbsentAndFirst`, `Parser.ClassifyPrecedence`,
  `Rules.FirstWordHidesOperator`).
* Only the first character of the last word decides the background flag:
  `&&` or `&x` as the last word also counts and is dropped.
* `exec_cmd` always returns 1, so `eval`'s `if (!exec_cmd(...)) return;`
  never returns; `handle_pipe` returns -1 or 1, never 0, so `eval` never
  returns after a pipe (`Rules.PipeResultNeverZero`).
* In the background nothing is waited for, so `status` is never refreshed
  and `&&`/`||` test the status left by an earlier line
  (`Rules.BackgroundListUsesStaleStatus`).
* `&&` and `||` leave `eval` with `return` when they stop, which also skips
  the background report.
* When `posix_spawnp` fails, the pid cell keeps its old value (what glibc
  does), and a foreground `exec_cmd` still waits on it.
* `handle_pipe`'s local `pid1` and `pid2` are never initialised; their
  starting values are left to the oracle.

## Model

| member | source | states |
|---|---|---|
| Argv.ArgsAt | spawnshell.c:288 | the argument list a `char **` denotes: the slots from its start up to, not including, the first NULL |
| Argv.Lookup | spawnshell.c:285-294 | an explicit search: the first index holding the target with no earlier match, or none exactly when the target is absent |
| Argv.FindIndexOf | spawnshell.c:285-294 | `find_index`'s answer, which is an index of the list whenever the list is non-empty |
| Argv.FindIndexMeaning | spawnshell.c:285-294 | a positive answer is a real match with no earlier match; 0 means absent or first word, and nothing else |
| Argv.FindIndexConflatesAbsentAndFirst | spawnshell.c:288-293 | `find_index` gives 0 for a target in first position and for an absent one, which the explicit search tells apart |
| Argv.FindIndex | spawnshell.c:286-294 | the loop over the slots up to the NULL returns `find_index`'s answer |
| Argv.TruncateArgumentList | spawnshell.c:173-177 | writes NULL at the index, changes no other slot, and returns the same array |
| Argv.SplitArgumentList | spawnshell.c:167-171 | truncates at the index and returns the slot after it as the start of the second command |
| Argv.CutViews | spawnshell.c:167-177 | after the cut at `k` the first command is the words before `k` and the second the words after it; the operator belongs to neither |
| Tokenizer.Prepared | spawnshell.c:303 | the line with its last character overwritten by a space: same length, ends in a space, every earlier character kept |
| Tokenizer.Tokens | spawnshell.c:310-318 | the words of a line: each non-empty and free of spaces |
| Tokenizer.TokensAt | spawnshell.c:310-317 | a word ending at the next space is the next token, and cutting goes on after that space |
| Tokenizer.BlankHasNoTokens | spawnshell.c:304-306 | a line of spaces has no words |
| Tokenizer.TokensKeepEveryNonSpace | spawnshell.c:310-318 | the words, put back together, are the line with its spaces removed: nothing else is lost or reordered |
| Tokenizer.TokensOfSpaced | spawnshell.c:310-318 | words each followed by one space are cut back into exactly those words |
| Tokenizer.StrChr | spawnshell.c:310 | `strchr`: the first index of the character before the terminating NUL, or none when there is none |
| Parser.Classify | spawnshell.c:328-347 | the mode is Simple exactly when none of `|`, `;`, `&&`, `||`, `<`, `>` counts, that is, none occurs unless it is also the first word (which hides its later copies); every other mode needs two words or more |
| Parser.ClassifyPrecedence | spawnshell.c:328-347 | the mode is Pipe > Seq > AndIf > OrIf > redirections > Simple, where an operator counts when it occurs and is not the first word; `<` and `>` together give InputOutputRedir |
| Parser.OperatorIndexPositive | spawnshell.c:330-347 | in every mode but Simple the operator the dispatcher looks up is really there, at index 1 or later |
| Parser.FromWords | spawnshell.c:321-347 | a parse is blank exactly when there are no words, and a blank parse has no arguments; otherwise its mode is the classification of the arguments that remain |
| Parser.ParseSpec | spawnshell.c:298-350 | the value `parseline` returns; a blank line has no arguments |
| Parser.ParseBackground | spawnshell.c:324-326 | a last word starting with `&` sets the flag and is dropped, the others unchanged; otherwise the words are kept and the flag is clear |
| Parser.BlankLine | spawnshell.c:303-322 | a line of spaces, whatever its last character, parses as blank |
| Parser.ParseSpacedWords | spawnshell.c:303-347 | a line of space-separated words not ending in `&` parses to exactly those words, in the foreground, classified |
| Parser.ParseLine | spawnshell.c:298-350 | the in-place parse fills a fresh 128-slot array with the words of `ParseSpec` and a NULL, with its count, flag and mode; each slot's word sits NUL-terminated in the buffer |
| Parser.CutLine | spawnshell.c:303-319 | after the last character becomes a space, the slots hold the line's words then NULL, each word NUL-terminated in the buffer |
| Parser.Classified | spawnshell.c:321-347 | dropping the background word and classifying gives the count, flag and mode of `ParseSpec`, leaving the other slots alone |
| Parser.CutWords | spawnshell.c:309-319 | the `strchr` loop records every word of the rest of the line, in order, followed by NULL |
| Parser.CutStep | spawnshell.c:311-317 | one pass of the loop records the next word, ends it with NUL and skips the spaces after it |
| Parser.RecordWord | spawnshell.c:311-312 | the slot gets the word up to the delimiter and the delimiter becomes NUL; nothing else changes |
| Parser.SkipSpaces | spawnshell.c:304-306 | stops at the first non-space or the NUL, having passed only spaces |
| Parser.FindSpace | spawnshell.c:310 | finds the space that ends the current word, or none when no space is left |
| Parser.DetectMode | spawnshell.c:328-347 | the chain of `find_index` tests on the slots yields `Classify` of the words |
| Semantics.Exec | spawnshell.c:249-263 | a background start leaves the status alone and never halts; a halt is only `EXIT_FAILURE`; the trace only grows |
| Semantics.ExecSpawnsOnce | spawnshell.c:253-261 | `exec_cmd` makes exactly one spawn request; the pid cell becomes the child's pid, or keeps its old value when the start fails; exactly in the foreground it then waits on that cell, the status becomes the reaped status (unchanged when the wait fails), and only a failed wait halts |
| Semantics.Run | spawnshell.c:104-107 | `exec_cmd` on the shell's own `pid` never makes `eval` return early |
| Semantics.PathAfter | spawnshell.c:181 | the path is the word after the operator, and NULL exactly when the operator is the last word |
| Semantics.InputAction | spawnshell.c:188-190 | an open of fd 0 with flags `O_RDONLY` and permissions 0x180; when `<` counts, its path is the word after the first `<`, or NULL when that `<` is the last word |
| Semantics.OutputAction | spawnshell.c:180-182 | an open of fd 1 with flags 0x241 (`O_WRONLY|O_CREAT|O_TRUNC`) and permissions 0x180; when `>` counts, its path is the word after the first `>`, or NULL when that `>` is the last word |
| Semantics.RedirSpec | spawnshell.c:113-130 | the redirection cases never make `eval` return early |
| Semantics.ListSpec | spawnshell.c:131-156 | a list always starts its left command (the trace only grows); it halts only in the foreground and only with `EXIT_FAILURE`; `;` never returns early; in the background the status is kept |
| Semantics.AfterLeft | spawnshell.c:135-155 | after the left command the trace only grows; an early return keeps the state and never follows `;` or a halt; a new halt is a foreground `EXIT_FAILURE`; in the background the status is kept |
| Semantics.Reap | spawnshell.c:222-223 | one `Wait` event on the given pid is added; the status becomes the reaped child's status and stays as it was when the wait fails |
| Semantics.PipeSpec | spawnshell.c:195-229 | the result is -1 exactly when `pipe` fails and 1 exactly when it succeeds; the `pipe` call is the first new event and the trace only grows; in the background the status is kept |
| Semantics.Dispatch | spawnshell.c:102-157 | the `switch` only adds events; a halt is always `EXIT_FAILURE`; only `&&` and `||` return early; in the background the status is kept |
| Semantics.BuiltinOf | spawnshell.c:231-244 | a word is not a builtin exactly when it is none of `exit`, `&`, `?` |
| Semantics.StatusCode | spawnshell.c:239 | `status >> 8` is the floor of the status divided by 256 |
| Semantics.Conclude | spawnshell.c:155-160 | after the `switch`, a halt ends the shell, and only a line that ran to the end in the background is reported, with the final `pid` |
| Semantics.Command | spawnshell.c:99-160 | a line with words halts with `EXIT_SUCCESS` exactly when its first word is `exit`, and otherwise halts only with `EXIT_FAILURE`; `&` and `?` keep `pid` and `status`; in the background the status is kept; the trace only grows |
| Semantics.EvalSpec | spawnshell.c:85-165 | one line only adds events; the shell halts only with `EXIT_SUCCESS` or `EXIT_FAILURE`, and with `EXIT_SUCCESS` only when the first word is `exit` |
| Rules.BlankLineChangesNothing | spawnshell.c:95-96 | a line without words changes nothing |
| Rules.BuiltinsComeFirst | spawnshell.c:99 | `exit` ends the shell with `EXIT_SUCCESS`, `&` does nothing, `?` reports `pid` and `status >> 8`; none starts a program or changes `pid` or `status` |
| Rules.ExitBeforePipe | spawnshell.c:99-112 | `exit | wc` is a pipe line and still exits: the builtin test comes first |
| Rules.HiddenPipeIsSimple | spawnshell.c:288-290 | in `| a | b` the operator `|` occurs again after the first word, yet the classification is Simple |
| Rules.FirstWordHidesOperator | spawnshell.c:288-290 | `| a | b` parses as a foreground Simple line of all four words: the first-word operator hides its later copy |
| Rules.SimpleStartsOne | spawnshell.c:104-107 | a foreground simple line whose first word is not a builtin starts exactly one program, its words with no file actions (so `| a | b` runs the program `|`) |
| Rules.ListRule | spawnshell.c:131-156 | the left command is always started; the right one exactly when the left one did not halt and, for `&&`, the status is 0, for `||`, non-zero; otherwise `eval` returns early |
| Rules.SeqRunsBoth | spawnshell.c:131-139 | for `;` the left and then the right command are started, unless the shell halted; the cut is at the first `;`, at index 1 or later |
| Rules.BackgroundListUsesStaleStatus | spawnshell.c:140-156 | in the background `&&` and `||` decide on the status left from before the line, which stays as it was |
| Rules.RedirectRule | spawnshell.c:113-130 | the command started is the words before the operator (the earlier one when both occur), with the opens as its actions, input first; an `addopen` that refuses its action halts with `EXIT_FAILURE` before anything starts |
| Rules.RedirectActions | spawnshell.c:179-193 | input opens fd 0 read-only, output opens fd 1 write/create/truncate, both owner read/write, each on the word after its operator |
| Rules.PipeResultNeverZero | spawnshell.c:195-229 | `handle_pipe` returns -1 exactly when `pipe` fails and 1 otherwise, never 0 |
| Rules.PipeFailureStartsNothing | spawnshell.c:197-198 | when `pipe` fails nothing is started and `pid` and `status` keep their values |
| Rules.PipeWiring | spawnshell.c:195-229 | left child writes the pipe and closes the read end, right child reads it and closes the write end, both started in the background, left first; the shell then closes both ends; only in the foreground does it wait, first on the left child's pid and then on the right child's; `pid` is the right child's (or, when that start failed, the unspecified `pid2`) |
| Rules.BackgroundKeepsStatus | spawnshell.c:99-160 | a background line never changes `status` |
| SpawnShell.CopyOf | spawnshell.c:195 | the by-value copy of the parsed line: a fresh array with the same slots |
| SpawnShell.Shell.constructor | spawnshell.c:88-89 | the `static` `pid` and `status` start at 0, with nothing done yet |
| SpawnShell.SplitAtOperator | spawnshell.c:212-213 | finds the first operator token and cuts the vector there: the first command is the words before it, the second the words after it, the operator itself belongs to neither |
| SpawnShell.Shell.ExecCmd | spawnshell.c:249-263 | spawns the vector starting at the given slot with the actions and does what `Exec` says to the pid cell, the status and the trace |
| SpawnShell.Shell.SetupOutputRedir | spawnshell.c:179-185 | returns the index of `>` and adds exactly one open of the word after it as standard output, or halts with `EXIT_FAILURE` when `addopen` refuses the action |
| SpawnShell.Shell.SetupInputRedir | spawnshell.c:187-193 | returns the index of `<` and adds exactly one open of the word after it as standard input, or halts with `EXIT_FAILURE` when `addopen` refuses the action |
| SpawnShell.Shell.WaitFor | spawnshell.c:222-223 | `waitpid` with its result ignored: the status changes only when a child is reaped |
| SpawnShell.Shell.StartPipeline | spawnshell.c:204-217 | builds the two action lists, cuts the copy at `|` and starts both halves in the background with them |
| SpawnShell.Shell.HandlePipe | spawnshell.c:195-229 | returns and leaves the shell exactly as `PipeSpec` says |
| SpawnShell.Shell.PlanRedirect | spawnshell.c:113-123 | the opens and the cut index of a redirection line, or the halt when `addopen` refuses an action, as `RedirSpec` says |
| SpawnShell.Shell.PlanBoth | spawnshell.c:124-128 | input open first, then output open; the command ends at the earlier operator |
| SpawnShell.Shell.RunRedirect | spawnshell.c:113-130 | the redirection cases leave the shell exactly as `RedirSpec` says |
| SpawnShell.Shell.RunList | spawnshell.c:131-156 | the `;`, `&&`, `||` cases leave the shell exactly as `ListSpec` says |
| SpawnShell.Shell.RunRight | spawnshell.c:135-155 | after the first command: stops on its failure, on a non-zero status after `&&` or a zero status after `||`, and otherwise runs the second command, as `AfterLeft` says |
| SpawnShell.Shell.DispatchMode | spawnshell.c:102-157 | the `switch` leaves the shell exactly as `Dispatch` says |
| SpawnShell.Shell.BuiltinCommand | spawnshell.c:231-244 | handled exactly for `exit`, `&`, `?`; only `exit` halts, with `EXIT_SUCCESS`; only `?` adds its report |
| SpawnShell.Shell.Finish | spawnshell.c:155-160 | the end of `eval` as `Conclude` says |
| SpawnShell.Shell.RunCommand | spawnshell.c:99-160 | a non-blank line: builtins first, and otherwise the dispatch followed by the background report, as `Command` says |
| SpawnShell.Shell.Eval | spawnshell.c:85-165 | one line leaves the shell, and halts it or not, exactly as `EvalSpec` says |

## Left out

- `main` (prompt, `fgets`, end of input) and `signal_handler` (SIGINT, SIGTSTP, SIGCHLD reaping): terminal I/O and asynchronous signals.
- `posix_spawnp`, `waitpid`, `pipe`, `close`, `PATH` and `environ` are not executed: they are the oracle `Os` and events in the trace.
- `posix_spawn_file_actions_t` is a list of action values; `posix_spawn_file_actions_init`/`destroy` and the results of `adddup2`/`addclose` are not modelled.
- `printf` output is the events `BackgroundReport` and `StatusReport`; `perror("spawn failed")` is the failed result inside the `Spawn` event; their formatting is not modelled.
- `unix_error` and `exit` end the shell: they are the halt code of `Eval`, not process termination.
- SpawnShell.Shell.Eval: requires a line shorter than `MAXLINE`, free of NUL, with fewer than 128 words; overflowing `buf` or `argv` is undefined behaviour in C.
- The dead `if (!exec_cmd(...)) return;` branches of `eval` and `handle_pipe` are not modelled, since `exec_cmd` always returns 1.
- `posix_spawn_file_actions_addopen` only records an open; a missing or unreadable file is not noticed there but makes `posix_spawnp` fail, which is the `SpawnFailed` answer in the `Spawn` event.
- A redirection operator as the last word passes a NULL path to `addopen`, and a list or pipe whose operator is the last word hands `posix_spawnp` an empty vector; both are undefined behaviour in C and are handed to the oracle as they are.
- Parser.ParseLine: slots hold copies of the words; that they are pointers into the buffer is stated only through the ghost offsets `ptrs` and `WordAt`.
- The command line is a string of characters, not of bytes: `MAXLINE` bounds characters rather than bytes, the overwrite of the last character replaces a whole character where C overwrites one byte (which differs on a line cut inside a multi-byte character), and input that is not valid text cannot be expressed. Splitting on spaces, the `&` test and `strcmp` give the same answers either way.
- Slots after the NULL terminator are NULL in the model; in C they are uninitialised and never read.
- `mode` and `bg` of a blank line are never assigned in C; the model has no value for them (`Blank`).
- Flag and permission values are the Linux ones (`O_WRONLY|O_CREAT|O_TRUNC` = 0x241, `S_IRUSR|S_IWUSR` = 0x180).
