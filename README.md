# klunk, modelled in Dafny

klunk is a small pipe-syntax query language over records of ranked game
matches. A query such as `index all | filter season(1) type(2) nodecay | count`
goes through three stages:

- The **tokenizer** (`klunk/language.py`) turns it into tokens: pipes, words,
  quoted strings, `name(text)` calls and a leading `+flags` block.
- The **compiler** turns the tokens into a list of `Expression`s, each a
  command with its arguments.
- The **runtime** (`klunk/runtime.py`) runs the expressions one by one against
  a current `Dataset`. It looks each command up in three prioritised tables,
  calls it, and reconciles what it returns with the current dataset.

This project models that core, together with what it works on:

- the `Component` base class, with its flags, log and result buffer;
- the `Dataset` container;
- the match record and its attribute-extraction protocol;
- the aggregations over matches: player statistics, head-to-head tallies and
  seed-type streaks;
- split lookup, the predicate combinators, and the string and time helpers.

## Layout

There is one module per source file, plus four helper modules:

| File | Module | Models |
|---|---|---|
| `language.dfy` | `Language` | tokenizer and compiler |
| `expression.dfy` | `Expr` | `Expression` record |
| `runtime.dfy` | `Runtime` | runtime and its local commands |
| `component.dfy` | `Comp` | `Component` base class |
| `dataset.dfy` | `Datasets` | `Dataset` container, user mappings, Python indexing of values |
| `match.dfy` | `Match` | match records, the `Value` union, extraction |
| `players.dfy` | `Players` | `Player` and `PlayerManager` |
| `h2h.dfy` | `HeadToHead` | head-to-head tallies |
| `dyn.dfy` | `Dyn` | seed-type streaks |
| `splits.dfy` | `Splits` | split lookup commands |
| `filters.dfy` | `Filters` | predicates and combinators |
| `parse_utils.dfy` | `ParseUtils` | parsing helpers |
| `utils.dfy` | `Utils` | time formatting, average, `Logger` |
| `wrappers.dfy` | `Wrappers` | `Option`, `Result`, and a Python exception as `Error(kind, message)` |
| `strs.dfy` | `Strs` | `str` methods over ASCII: strip, split, partition, lower, int parsing |
| `seqs.dfy` | `Seqs` | filtering, sub-sequences, first index |
| `sorting.dfy` | `Sorting` | Python's stable `sorted` as an insertion sort over a total key order |

### Pure and imperative parts

Pure parts are datatypes and functions:

- the scanning helpers;
- the record model;
- the predicates;
- every specification the imperative parts are proved against.

Code that updates state step by step is imperative Dafny:

- **Classes, with `modifies` clauses on their methods:**
  - `Component`: the tokenizer, the compiler and the runtime each hold one;
  - `Dataset`;
  - `Player` and `PlayerManager`;
  - `H2H`;
  - the `PlayerRanking` and streak table;
  - `Logger`.
- **Methods with loop invariants:**
  - the quoted-string loop;
  - the tokenize loop;
  - the compile loop;
  - the pipeline loop of `execute`;
  - the loops of `localfilter`, `partition_list`, `GetUserMappings`, the
    player manager's constructor, `generate`, the timeline lookup
    (`TimelineList.__init__`) and the match constructor's score-change loop.

Each method is proved to match a specification function. The properties of
the system are lemmas about those functions.

Python exceptions become `Result` values carrying the exception's class and
message. Error paths are modelled rather than excluded by preconditions.

## Behaviour worth knowing

- **A failing stage's exception ends the run as raised.** `Runtime.execute`
  does not wrap it; the run stops at the first stage that raises.
- **`sort` keeps records whose key is None.** Python's `sorted` then raises
  TypeError as soon as such a key must be compared with another.
  `Runtime.SortedOn` states exactly when the sort succeeds.
- **A `filter` pass that keeps nothing returns a clone of the current
  dataset** holding the message `Empty dataset after applying filter: ...`.
- **`rsort` is `sorted(..., reverse=True)`,** a stable descending sort:
  records with equal keys keep their order.
- **Filtering on a member list against a plain literal raises
  AttributeError,** because `UUIDList.__eq__` calls `basic_repr` on the
  other operand.
- **A `filter` literal is converted only for values of type exactly `int`
  (or bool or UUID).** A match's `date`, a timeline's `time` and a
  `duration` that the timeline fix did not raise are `Seconds` or
  `Milliseconds`. For those the literal stays a string, which no time
  equals, so `filter duration(600000)` keeps nothing.
  `Runtime.FilterOnDuration` states this.
- **`earliest` breaks ties by list order.** Of the entries with the least
  time, the stable sort returns the first.

## Model

| member | source | states |
|---|---|---|
| Language.SameKindIsConstructor | klunk/language.py:37-38 | token equality holds exactly between tokens of one kind, whatever their data and offsets |
| Language.Peek | klunk/language.py:90-91 | `peek` is the first character, or empty exactly for the empty string |
| Language.PrepTopLevel | klunk/language.py:77-81 | the query always starts with a pipe; one that already does is unchanged, otherwise one pipe is prepended |
| Language.PrepTopLevelIdempotent | klunk/language.py:77-81 | preparing a query twice is preparing it once |
| Language.SplitBefore | klunk/language.py:93-102 | `split_before(c, p)` returns `(a, b)` with `a + b == c`, no character of `a` satisfying `p`, and `b` empty or starting with one that does |
| Language.SplitBeforeUnique | klunk/language.py:93-102 | those three conditions determine the split: any pair meeting them is the result |
| Language.ConsumeString | klunk/language.py:107-108 | a word is cut before the first pipe, parenthesis or space |
| Language.QuotedScan | klunk/language.py:115-127 | the scan leaves a suffix of its input that is empty or starts at the closing quote |
| Language.Unquote | klunk/language.py:110-130 | `consume_quoted` leaves a strictly shorter suffix of its input, or raises ParseError |
| Language.ScanRound | klunk/language.py:116-127 | one loop round keeps the outcome of the scan: an escaped quote is kept literally and the scan goes on, otherwise it stops |
| Language.ConsumeQuoted | klunk/language.py:110-130 | the imperative loop returns exactly the specified unquoting |
| Language.QuotedRoundTrip | klunk/language.py:110-130 | a text with every quote escaped, written between quotes, reads back as itself and lexing resumes right after the closing quote |
| Language.QuotedScanEscapedQuote | klunk/language.py:117-123 | a backslash before the quote gives a literal quote and the scan goes on |
| Language.UnquoteUnterminated | klunk/language.py:128-129 | without a closing quote `consume_quoted` raises ParseError |
| Language.LexOne | klunk/language.py:167-206 | one lexer round makes a token at the current offset and leaves a strictly shorter suffix |
| Language.LexWord | klunk/language.py:181-199 | a word starting with a letter or digit becomes a STRING spelled at its start, or a FUNCTION when a letter word is followed directly by `(` |
| Language.LexQuoted | klunk/language.py:201-204 | a quoted string becomes a STRING at its offset |
| Language.Lex | klunk/language.py:161-164 | a successful tokenize returns at most 1000 tokens, so producing a 1001st raises |
| Language.LexSmall | klunk/language.py:140-210 | `tokenize("")` is `[]` and `tokenize("\|")` is one PIPE at offset 0 |
| Language.LexRejectsBadStart | klunk/language.py:206 | a leading character that is not blank, a pipe, a letter, a digit or a quote raises ParseError |
| Language.LexParameters | klunk/language.py:146-157 | a leading `+` gives one PARAMETERS token at offset 0 holding the non-empty words before the first pipe, and lexing resumes at that pipe with offsets into the original query |
| Language.LexParametersOnly | klunk/language.py:149-150 | without a pipe the `+` block is the whole query |
| Language.LexFunction | klunk/language.py:181-189 | a word followed directly by `(` is one FUNCTION token holding the text up to the first `)`; parentheses do not nest |
| Language.ParamWords | klunk/language.py:153 | the parameter words are non-empty and hold no space |
| Language.Tokenizer.constructor | klunk/language.py:137-138 | a tokenizer is a fresh component named `Tokenizer` with cleared flags, log and result |
| Language.Tokenizer.Tokenize | klunk/language.py:140-210 | the imperative tokenizer returns the specified tokens; every token's offset is the index of its first character in the original query; the `+` words go to `handle_parameters` |
| Language.Tokenizer.LexFrom | klunk/language.py:161-206 | the tokenize loop appends what the lexer loop makes of the rest, and keeps every token at its offset |
| Language.Tokenizer.NextToken | klunk/language.py:173-206 | one loop body produces the lexer loop's next token, placed where its offset says |
| Language.Validate | klunk/language.py:220-223 | `validate` passes exactly for an expression with a command, and otherwise raises CompileError |
| Language.Build | klunk/language.py:262-301 | the token loop never drops an expression, and yields none only when it started with none and had no tokens |
| Language.CompileTokens | klunk/language.py:236-237 | an empty token list raises CompileError |
| Language.CompileLonePipe | klunk/language.py:262-272 | the last expression is never validated, so `[PIPE]` compiles to one empty expression |
| Language.CompileParametersOnly | klunk/language.py:239-252 | a flags-only input gives no expressions and its words |
| Language.CompileEmptyBeforePipe | klunk/language.py:266-270 | a pipe closing an expression without a command raises CompileError |
| Language.CompileFromPipe | klunk/language.py:262-304 | tokens that start with a pipe are compiled by the token loop alone |
| Language.CompileLeadingFunction | klunk/language.py:286-291 | a FUNCTION in command position raises CompileError |
| Language.CompileInsertsPipe | klunk/language.py:257-259 | a missing leading pipe is supplied at offset 0 |
| Language.BuildArgs | klunk/language.py:277-299 | after a command, STRINGs and FUNCTION payloads are appended as arguments, in order |
| Language.BuildOne | klunk/language.py:266-284 | a pipe and a command word start one expression, which then collects its arguments |
| Language.CompileRender | klunk/language.py:225-304 | compiling the tokens that spell a pipeline of commands gives that pipeline back with no `+` words |
| Language.Compiler.constructor | klunk/language.py:217-218 | a compiler is a fresh component named `Compiler` with cleared flags, log and result |
| Language.Compiler.Compile | klunk/language.py:225-304 | the imperative compiler returns the specified pipeline and parameters; a leading PARAMETERS token sets the flags, and results are untouched |
| Language.Compiler.BuildPipeline | klunk/language.py:262-301 | the pop-and-append loop builds exactly the specified pipeline |
| Expr.NewExpression | klunk/expression.py:5-8 | command and location are kept; a missing or empty argument list becomes an empty list |
| Expr.EqualIgnoresLoc | klunk/expression.py:13-14 | equality compares command and arguments only, so moving an expression does not change what it equals |
| Expr.EqualIsEquivalence | klunk/expression.py:13-14 | expression equality is reflexive, symmetric and transitive |
| Expr.EqualSameTruth | klunk/expression.py:10-14 | equal expressions are both truthy (have a command) or both not |
| Utils.Logger.constructor | klunk/utils.py:6-7 | a new logger holds an empty log |
| Utils.Logger.Write | klunk/utils.py:9-11 | `write` appends its arguments joined by single spaces and a newline, and nothing else |
| Utils.Average | klunk/utils.py:14-18 | -1 for an empty list; otherwise the result times the length is the sum |
| Utils.AverageBetween | klunk/utils.py:14-18 | the average of a non-empty list lies between any lower and upper bound of its elements |
| Utils.TimeFmt | klunk/utils.py:33-35 | `time_fmt` gives `Invalid Time` exactly for -1 |
| Utils.ShortTimeFmt | klunk/utils.py:21-23 | `short_time_fmt` gives `Invalid Time` exactly for -1 |
| Strs.ParseIntGrouped | klunk/runtime.py:209-210 | `int` reads digits grouped by single underscores as the same digits without them |
| Strs.ParseIntUngroupedFails | klunk/runtime.py:209-210 | `int` raises ValueError on any unsigned, unpadded text that is not grouped digits |
| Strs.ParseIntUnderscored | klunk/runtime.py:209-210 | `int("1_0")` is 10 |
| Strs.ParseIntStrayUnderscores | klunk/runtime.py:209-210 | a leading, trailing or doubled underscore makes `int` raise |
| Runtime.CoerceGroupedInt | klunk/runtime.py:209-210 | against an `int` value, the filter literal `1_0` is converted to 10 |
| Utils.Pad2ReadBack | klunk/utils.py:30 | a `:02` field is all digits, reads back as the number, and has two characters below 100 |
| Utils.TimeFmtReadBack | klunk/utils.py:33-43 | `time_fmt` splits at `:` into three fields; minutes and seconds are two digits below 60, and hours*3600 + minutes*60 + seconds is the whole number of seconds (milliseconds floored by 1000 unless `is_s`) |
| Utils.ShortTimeFmtReadBack | klunk/utils.py:21-30 | `short_time_fmt` splits into two fields; seconds are two digits below 60 and minutes*60 + seconds is the whole number of seconds |
| Runtime.Resolve | klunk/runtime.py:221-228 | `execute_simple` fails exactly when the stage has no command or the name is in no table, with the RuntimeError message naming it and pointing to `commands` |
| Runtime.ResolveFirstMatch | klunk/runtime.py:224-229 | the table used is the first of `[commands, basic_commands, locals]` that holds the name, so a higher table hides a lower one |
| Datasets.Sequence | klunk/runtime.py:185-202 | indexable content is truthy exactly when it is non-empty; a list gives its items |
| Runtime.IndexCommand | klunk/runtime.py:72-77 | `index name` succeeds exactly for one word naming a registered dataset and returns that dataset; an unknown name raises RuntimeError |
| Runtime.IndexStep | klunk/runtime.py:72-77 | the stage `index name` switches to the registered dataset, or raises RuntimeError for an unknown name |
| Runtime.WordsOf | klunk/runtime.py:125 | the argument words, or None exactly when some argument is a call (whose `isdigit` raises AttributeError) |
| Runtime.Window | klunk/runtime.py:133-136 | the slice of `take` lies within the list |
| Runtime.TakeParse | klunk/runtime.py:125-134 | a call argument raises AttributeError; more than one all-digit word raises RuntimeError with the count; `last` is recognised among the other words |
| Datasets.Item | klunk/runtime.py:128-132 | `data[0]` (`data[-1]` with `last`) is the first (last) element of a sequence, IndexError when it is empty; on a dict it is the value under the integer key, KeyError `0` (`-1`) when there is none |
| Runtime.TakeOf | klunk/runtime.py:121-136 | without a count `take` indexes the content as `Item` does, so dict content is looked up by key; with a count it succeeds exactly on sequence content, and dict content raises TypeError because a slice is not hashable |
| Runtime.TakeParseCount | klunk/runtime.py:125-134 | `take n` and `take last n` read back their count and flag |
| Runtime.TakeFirst | klunk/runtime.py:136 | `take n` is `data[:n]` |
| Runtime.TakeLast | klunk/runtime.py:134-135 | `take last n` is `data[-n:]`, and `take last 0` is the whole list |
| Runtime.TakeSingle | klunk/runtime.py:128-132 | without a count, `take` gives the first (or with `last` the last) element, and IndexError on an empty list |
| Runtime.TakeTwice | klunk/runtime.py:119-136 | taking the same count twice is taking it once |
| Runtime.NoNegates | klunk/runtime.py:190-196 | a bare word `X` becomes `('is_X', True)` and `noX` becomes `('is_X', False)` |
| Runtime.Compared | klunk/match.py:104-106 | a member list compared with anything but a member list raises AttributeError (on the right, a timeline list is the exception); two member lists are equal exactly when their sorted uuids are; other values compare as Python's `==` |
| Runtime.Survivors | klunk/runtime.py:212 | the comprehension raises the first extraction or comparison failure, and otherwise keeps, in order, exactly the elements whose value equals the literal |
| Runtime.FilterPass | klunk/runtime.py:199-212 | one filter pass, with the literal coerced by the value of `res[0]`, keeps an order-preserving sub-list of the iterated elements |
| Runtime.FilterOnMembers | klunk/runtime.py:199-212 | `filter members(x)` on matches raises AttributeError `'str' object has no attribute 'basic_repr'` |
| Runtime.Filtered | klunk/runtime.py:180-219 | `filter` never returns a registry dataset |
| Runtime.FilteredSubseq | klunk/runtime.py:180-219 | a filter that ends on a list leaves an order-preserving sub-list of the list it started from |
| Runtime.FilterOnce | klunk/runtime.py:199-215 | a single filter on a non-empty list that succeeds keeps exactly the elements whose value equals the literal, converted when the first element's value is of type exactly bool, UUID or `int` (read by `int`, which also accepts underscores between digits; never for a `Milliseconds` or `Seconds` time), or gives a clone holding the `Empty dataset after applying filter` message |
| Runtime.FilterOnDuration | klunk/runtime.py:205-214 | `filter duration(x)` on matches whose first duration is a `Milliseconds` keeps the literal as a string, matches nothing and gives the `Empty dataset after applying filter` clone |
| Runtime.ArgExtract | klunk/runtime.py:112 | `x.extract(attribute)` for a sort key: a word extracts as `extract` does; a call argument (a pair) raises AttributeError for a value without `extract`, gives None for an empty member or timeline list, and otherwise raises AttributeError because a tuple has no `startswith` |
| Runtime.SortCallOnEmptyMembers | klunk/runtime.py:112 | sorting a list holding one empty member list by a call argument succeeds and gives the list back |
| Runtime.SortCallOnText | klunk/runtime.py:112 | sorting a list holding a string by a call argument raises AttributeError for the missing `extract` |
| Runtime.FirstFailure | klunk/runtime.py:112 | the first element whose key cannot be extracted, None exactly when every key extracts |
| Runtime.SortedOn | klunk/runtime.py:109-117 | `sort` returns a permutation of the elements; when every key extracts, it succeeds exactly when the keys are mutually comparable |
| Runtime.SortSpec | klunk/runtime.py:109-117 | when every element's key extracts and the keys are mutually comparable, `sort` succeeds; its result is ordered by the extracted values (descending for `rsort`), stable, and keeps each element |
| Runtime.Invoke | klunk/runtime.py:227 | only `index` hands back a registry dataset; a command outside the model gives exactly what `ext` answers, its result entries included; among the modelled local commands only `count` writes result lines |
| Runtime.Reconcile | klunk/runtime.py:246-253 | None keeps the dataset; a list becomes a clone with the same name; a dataset replaces it; any other value raises RuntimeError |
| Runtime.RunWith | klunk/runtime.py:241-254 | a run uses every stage when it succeeds, and stops at the stage that raised; the result entries a stage added stay recorded even when it raises |
| Runtime.RunTurn | klunk/runtime.py:241-254 | one turn of the loop: the first stage runs, then the rest from its result |
| Runtime.RunAppend | klunk/runtime.py:241-254 | running `p + q` is running `p`, then `q` from where `p` ended |
| Runtime.Execution | klunk/runtime.py:241-257 | a run starts on `datasets["default"]` (KeyError when absent), and an empty pipeline returns that dataset |
| Runtime.TakeStep | klunk/runtime.py:119-136 | the stage `take n` on a list ends on a clone holding the first (or last) `n` elements |
| Runtime.TakeInvoke | klunk/runtime.py:119-136 | the local `take n` command on a list of at least `n` elements returns the first (or last) `n` elements and adds no result line |
| Runtime.TakeCountStages | klunk/runtime.py:119-158 | as the runner sees them, `take n` keeps the taken elements without a line, and `count` keeps them and adds its size line |
| Runtime.CountStep | klunk/runtime.py:153-158 | the stage `count` writes one line and keeps the dataset |
| Runtime.TakeThenCount | klunk/runtime.py:119-158 | `take n \| count` on a list of at least `n` elements reports `Current size: n` and ends on the taken elements |
| Runtime.AppendedAppend | klunk/runtime.py:156 | adding result lines in two batches is adding them together |
| Runtime.ResultLogAppend | klunk/component.py:84-89 | the log lines of result lines added in two batches are those of adding them together; `Began recording a result.` appears once |
| Runtime.Runtime.constructor | klunk/runtime.py:34-39 | a runtime holds the given datasets and command tables, with a fresh component named `Runtime` |
| Runtime.Runtime.FilterCommand | klunk/runtime.py:180-219 | the imperative filter loop returns exactly the specified filter outcome |
| Runtime.Runtime.Dispatch | klunk/runtime.py:221-228 | calling the command gives its result or error, and its lines go to the result buffer and the log |
| Runtime.Runtime.DispatchLocal | klunk/runtime.py:221-228 | a modelled local command gives the specified result or error; only `count` adds a line to the result buffer and the log |
| Runtime.Runtime.AddLines | klunk/component.py:84-89 | each entry a command adds goes to the result buffer in order and is logged, after the begin line on first use |
| Runtime.Runtime.CountCommand | klunk/runtime.py:153-158 | `count` adds exactly its size line to the result buffer |
| Runtime.Runtime.RunStage | klunk/runtime.py:242-254 | one pass runs the stage, reconciles the result, and records exactly its lines; the new dataset is the current one, a registered one or a new clone |
| Runtime.Runtime.Turn | klunk/runtime.py:241-254 | one imperative turn follows the specified run |
| Runtime.Runtime.Drain | klunk/runtime.py:241-254 | the loop pops stages front to back until the pipeline is empty or one raises, and ends in the specified dataset or error with the specified lines recorded |
| Runtime.Runtime.RunDefault | klunk/runtime.py:241-257 | the loop starts from `default` and follows the specified run |
| Runtime.Runtime.Execute | klunk/runtime.py:45-257 | `execute` applies the parameters, then returns the specified final dataset or error; the pipeline is empty after a successful run |
| Comp.ApplyParams | klunk/component.py:17-37 | a known word turns its flag on (`debug`, `test`, `timing`, `tb`/`tracebacks`, `asfile`), unknown words are ignored, and no flag is ever turned off |
| Comp.ParamLog | klunk/component.py:17-37 | `handle_parameters` writes at most one log line per word |
| Comp.Component.constructor | klunk/component.py:2-15 | a new component has every flag off, an empty log and no result |
| Comp.Component.HandleParameters | klunk/component.py:17-37 | the loop sets exactly the flags of the known words and logs one line for each |
| Comp.Component.HandleParameter | klunk/component.py:19-37 | one word sets its flag and logs its line |
| Comp.Component.Log | klunk/component.py:70-71 | `log` appends exactly one entry, the arguments joined by spaces |
| Comp.Component.LLog | klunk/component.py:75-76 | `llog(c, ...)` logs with the prefix `[c:<c>]` |
| Comp.Component.AlwaysLog | klunk/component.py:78-82 | `alwayslog` logs one entry and leaves `debug` as it was |
| Comp.Component.AddResult | klunk/component.py:84-89 | `add_result` creates the buffer on first use and appends exactly one joined entry, logging the start once |
| Comp.DumpLogReadBack | klunk/component.py:91-92 | a dumped log splits back at newlines into its entries when none holds a newline |
| Sorting.SortIsSorted | klunk/runtime.py:112 | the stable sort used for `sorted` orders its result by key, ascending or (with `reverse`) descending |
| Sorting.SortIsStable | klunk/runtime.py:112 | elements with equal keys keep their order |
| Sorting.SortOfSorted | klunk/runtime.py:112 | sorting an already ordered list changes nothing |
| Sorting.Sort | klunk/runtime.py:112 | the sort returns a permutation of its input |
| Sorting.SortStringsPermutation | klunk/dataset.py:150 | sorting strings depends only on which strings there are |
| Datasets.SetKey | klunk/dataset.py:216 | `d[k] = v` on a dict kept as an ordered list of pairs: the keys keep their places, and the list grows by one exactly when `k` was absent |
| Datasets.SetKeyLookup | klunk/dataset.py:216 | after `d[k] = v`, `d[k]` is `v` and every other key keeps its value |
| Datasets.SetAllLookup | klunk/dataset.py:214-216 | after assigning a list of pairs in order, an assigned key holds the value of its last assignment and every other key keeps its old value |
| Datasets.SetAllDistinct | klunk/dataset.py:214-216 | assigning pairs keeps the dict's keys pairwise distinct |
| Datasets.Kept | klunk/dataset.py:150 | the stripped parts that `to_idx_key` keeps are all non-empty |
| Datasets.KeptPermutation | klunk/dataset.py:150 | parts that are a reordering of each other keep a reordering of the same parts |
| Datasets.ToIdxKey | klunk/dataset.py:149-150 | `to_idx_key(s)` holds no empty part |
| Datasets.IdxKeyIgnoresOrder | klunk/dataset.py:149-150 | the key is sorted, holds exactly the non-empty stripped parts, and any reordering of the parts gives the same key |
| Datasets.ToIdx | klunk/dataset.py:152-164 | `to_idx` never returns more matches than it was given |
| Datasets.ToIdxIsFilter | klunk/dataset.py:152-164 | `to_idx` keeps, in order, exactly the matches that pass every filter (`ranked`, `nodecay`, `noabnormal`, `current`) the key names, and ignores other words; the result is an order-preserving sub-list |
| Datasets.DatasetLen | klunk/dataset.py:195-201 | `len` is the element count of a list or dict and 1 for content that is not a supported iterable |
| Datasets.Example | klunk/dataset.py:241-249 | `example()` is the first element (a dict's first value), None for an empty collection, and the content itself for a non-collection |
| Datasets.Numbered | klunk/dataset.py:234 | one line `"<i+1>. <formatted value>"` per value, in order; fails exactly when some value fails to format |
| Datasets.Summarize | klunk/dataset.py:226-239 | a one-element list (or dict item list) renders bare; string content renders verbatim; other non-list content gives None |
| Datasets.Shown | klunk/dataset.py:234 | `val[0:10]` is the prefix of at most ten elements |
| Datasets.SummarizeBounded | klunk/dataset.py:226-237 | any other list (a dict as its item list) renders its first ten elements at most, numbered from 1, then `... (N-10 values trimmed)` when N > 10 |
| Datasets.UpdateKeepsOrder | klunk/dataset.py:206-212 | the appended matches are exactly the incoming ones newer than the last id, and when both lists are in id order the result is too, so no id appears twice |
| Datasets.Dataset.constructor | klunk/dataset.py:191-193 | a dataset holds the given name and content |
| Datasets.Dataset.Clone | klunk/dataset.py:203-204 | `clone(x)` is a new dataset with the same name holding `x`; the original is not changed |
| Datasets.Dataset.Update | klunk/dataset.py:206-212 | `update` succeeds exactly on a list (member and timeline lists included) whose last element is a match, or a timeline when nothing comes in; it then appends, in order, exactly the incoming matches whose id exceeds the last match's id; otherwise it raises what `l[-1]` raises, TypeError when an int id meets a timeline's string id, and AttributeError for a missing `id` or `extend`, and changes nothing |
| Datasets.Dataset.UpdateOverwriteDict | klunk/dataset.py:214-216 | each pair is assigned into the dict in order; the first assignment into non-dict content raises TypeError and leaves it unchanged, so with no pairs any content is kept |
| Datasets.GetUserMappings | klunk/dataset.py:270-280 | both tables equal the member-by-member assignments plus the draw entries |
| Datasets.AddMembers | klunk/dataset.py:274-277 | the inner loop assigns one match's members into both tables in order |
| Datasets.UuidTableLookup | klunk/dataset.py:270-280 | a uuid maps to the nickname of its latest appearance; a uuid that never appears is absent |
| Datasets.UuidTableDraw | klunk/dataset.py:278-279 | `__draw` maps to `Drawn Match` and `drawn match` to `__draw` |
| Match.TypeStr | klunk/match.py:8-9 | `type_str` succeeds exactly on 1..4 and raises KeyError otherwise |
| Match.TypeInt | klunk/match.py:11-12 | `type_int` gives a number in 1..4 or raises KeyError |
| Match.TypeIntOfTypeStr | klunk/match.py:8-12 | `type_int(type_str(t)) == t` for t in 1..4 |
| Match.TypeStrOfTypeInt | klunk/match.py:8-12 | `type_str(type_int(s))` is `s` up to case |
| Match.TypeIntIgnoresCase | klunk/match.py:11-12 | `type_int` is case-insensitive |
| Match.FieldOf | klunk/match.py:25-33 | a member or timeline attribute exists exactly for its slots, and is never the failure sentinel |
| Match.MatchField | klunk/match.py:145-166 | a match attribute exists exactly for its slots |
| Match.MatchDerived | klunk/match.py:243-256 | a match has an `rql_` accessor exactly for the derived names |
| Match.PlainExtractFails | klunk/match.py:15-21 | `_extract` on a member or timeline gives the sentinel exactly for names starting with `_` or not among its slots, and otherwise the slot's value |
| Match.MatchAttrFails | klunk/match.py:15-21 | `_extract` on a match gives the sentinel exactly for hidden names and names that are neither a slot nor an accessor; a slot shadows its accessor |
| Match.WinnerIsTheSlot | klunk/match.py:15-21 | `winner` is a slot, so extracting it gives the uuid and never runs `rql_winner` |
| Match.DerivedFlags | klunk/match.py:243-256 | `is_draw` is the draw marker test; `completed` and `is_completed` hold iff not a draw and not a forfeit |
| Match.LExtract | klunk/match.py:81-87 | `_lextract` is None for an empty list or a first element lacking the key, and otherwise one extraction per element |
| Match.MatchExtractFromMembers | klunk/match.py:258-262 | a member-only name extracted from a match gives the members' values in member order |
| Match.MembersGet | klunk/match.py:90-94 | `UUIDList.get` returns the first member with that uuid, and None exactly when there is none |
| Match.OtherMember | klunk/match.py:270-276 | `get_other_member` returns a member with a different uuid, and fails exactly when there is none |
| Match.MatchGetItem | klunk/match.py:322-335 | `__getitem__` knows six JSON key names and raises KeyError for any other |
| Match.GetItemAgreesWithExtract | klunk/match.py:322-328 | each JSON key reads the same value as the slot it was stored in |
| Match.GetItemAgreesOnFlags | klunk/match.py:329-334 | `forfeit`, `is_decay` and `winner` read their slots |
| Match.MembersEqualIgnoresOrder | klunk/match.py:101-106 | member-list equality does not depend on member order |
| Match.MembersEqualSwapped | klunk/match.py:101-106 | two members in swapped order are equal lists, whatever else differs |
| Match.BuildLookup | klunk/match.py:112-121 | the lookup has a key exactly for each timeline id, mapping it to its non-empty group in list order |
| Match.AllOf | klunk/match.py:132-133 | `all(id)` is an order-preserving sub-list whose entries all have that id |
| Match.EarliestTime | klunk/match.py:126-130 | `earlist_time` is None exactly when no timeline has the id |
| Match.EarliestTimeIsLeast | klunk/match.py:126-130 | on the time-sorted list the constructor builds, the group's first time is its least |
| Match.EarliestSpec | klunk/match.py:356-382 | `earliest` is None exactly when no entry of the split belongs to the player, and otherwise returns such an entry of least time, the first of those in list order |
| Match.SortedHeadIsLeast | klunk/match.py:379-380 | the head of a sort by time is an entry with the least time |
| Match.MaxTime | klunk/match.py:214 | the maximum of the event times is one of them and bounds them all |
| Match.ApplyScores | klunk/match.py:229-241 | the score-change loop keeps the member count |
| Match.ApplyScoresHasElos | klunk/match.py:227-233 | `has_elos` stays set exactly when every entry has a `change` |
| Match.ApplyScoresStops | klunk/match.py:231-233 | the loop stops at the first entry without `change`, keeping what earlier entries wrote |
| Match.ApplyOneScore | klunk/match.py:234-241 | an entry writes `elo = score` and `change` into its member, with `elo_after` the sum unless the score is -1, and leaves other members unchanged |
| Match.FixedDuration | klunk/match.py:212-217 | the duration is at least the final time and every event time, and differs from the final time only when it is an event time |
| Match.MatchOf | klunk/match.py:205-206 | a match without `is_decay` fails the constructor's assertion |
| Match.MatchOfFields | klunk/match.py:194-241 | draw marker for a missing winner; time-sorted timelines holding the JSON's events; duration raised to the latest event; `was_fixed` exactly when raised; `is_abnormal` iff completed, under seven minutes and season below 2; `scored` iff score changes are non-empty; `has_elos` only when scored |
| Match.NewQueryMatch | klunk/match.py:194-241 | the step-by-step constructor builds exactly the specified match |
| Match.ApplyScoreChanges | klunk/match.py:229-241 | the imperative score-change loop gives exactly the specified members and flag |
| Match.PySorted | klunk/match.py:141 | `sorted` succeeds exactly when the keys are mutually comparable, returns a permutation, and otherwise raises TypeError |
| Match.PySortedSpec | klunk/match.py:141 | a successful sort is ordered by key and stable |
| Match.SortBy | klunk/match.py:136-141 | an empty list sorts to itself; a name starting with `_`, or one that is neither a slot nor a method of a match, raises RuntimeError; a method name sorts one match to itself and raises TypeError for two or more, since bound methods have no order; otherwise a permutation ordered by the slot |
| Players.Indexed | klunk/players.py:92-95 | `indexed(d, i)` is `d[i]` for a dict (KeyError when absent) and `d` itself for a number |
| Players.SummedBump | klunk/players.py:96-99 | adding to one type of a dict counter adds the same to its sum and leaves the other types alone |
| Players.ZerosRead | klunk/players.py:11-12 | a fresh counter sums to zero and reads zero at exactly the four types |
| Players.NormElo | klunk/players.py:47-48 | an elo of -1 is stored as None; any other is kept |
| Players.TallyCounts | klunk/players.py:241-258 | a non-decay game adds one to its type's games and to exactly one of that type's wins, losses and draws, so `wins + losses + draws == played_per` is kept |
| Players.NewStats | klunk/players.py:40-71 | a new player has every counter at zero, no best time, not committed, and an elo of -1 stored as None |
| Players.RecordedTally | klunk/players.py:236-260 | one match: a decay adds only to `decayed`; any other adds one game of its type that is exactly one of a win (member is the winner), a draw or a loss; the counters stay balanced and forfeits stay within wins and losses |
| Players.RecordedCompletion | klunk/players.py:244-251 | a non-forfeit win adds one to `match_completions`, its duration to `time_completions`, and lowers `pb` to it; nothing else touches those three |
| Players.RecordedRefresh | klunk/players.py:228-234 | nick and elo change only for a match strictly later than `latest`, which then supplies both (-1 as None) |
| Players.RecordedDecay | klunk/players.py:259-260 | a decay match leaves every per-type counter and completion figure alone and adds one to `decayed` |
| Players.Flatten | klunk/players.py:76-81 | `commit_ranked` replaces six counters by their type-2 entries in order, raising KeyError at the first missing entry |
| Players.CommitRankedOf | klunk/players.py:73-81 | committing refuses an already committed player (AssertionError) and otherwise only flattens the counters and sets the mode |
| Players.CommitReadsRanked | klunk/players.py:73-99 | after committing, every mode reads the ranked figure, a sum is that figure, the ranked balance still holds, and committing twice fails |
| Players.Replay | klunk/players.py:223-268 | the player built from a uuid's events has that uuid |
| Players.ReplaySound | klunk/players.py:241-258 | a replayed player's counters balance at every type and forfeits stay within wins and losses |
| Players.ReplayGames | klunk/players.py:241-260 | `played_per[t]` counts the player's non-decay type-t matches and `decayed` its decay matches |
| Players.ReplayResults | klunk/players.py:244-258 | `wins[t]` and `draws[t]` count the player's won and drawn non-decay type-t matches |
| Players.ReplayCompletions | klunk/players.py:244-251 | `match_completions` counts non-forfeit wins, `time_completions` sums their durations, and `pb` is the least of them, or None |
| Players.AddEventSpec | klunk/players.py:221-268 | one event changes only its own player, created when unknown and placed at the end of the dict order |
| Players.ApplyFromOk | klunk/players.py:200-268 | any sequence of events keeps the player table well formed |
| Players.ApplyProjects | klunk/players.py:200-268 | the table holds, for every uuid met, exactly the replay of that uuid's own events, and nobody else |
| Players.ParseArgs | klunk/players.py:193-198 | every argument must be `opponent_above`, which sets the threshold (the last one wins); any other raises RuntimeError |
| Players.MemberError | klunk/players.py:210-242 | a member that raises nothing and is processed belongs to a countable match; a member of a match with a type lacking a counter raises KeyError |
| Players.MatchEventsSpec | klunk/players.py:210-268 | the events of a match are exactly its processed members, in order |
| Players.ThresholdSkips | klunk/players.py:213-219 | with `opponent_above`, a member of a two-member match whose opponent's elo is below the threshold contributes nothing |
| Players.TotalsCount | klunk/players.py:270-274 | `games_added` counts non-decay matches and `ranked_added` non-decay type-2 matches |
| Players.Build | klunk/players.py:186-278 | construction succeeds exactly when the arguments are valid and no match raises |
| Players.BuildPlayers | klunk/players.py:186-275 | the built manager has one player per uuid of a processed member, each exactly the replay of that uuid's events and balanced |
| Players.MeetsFromSpec | klunk/players.py:281-285 | the per-type threshold checks never raise on uncommitted counters and hold exactly when every named type meets its threshold |
| Players.QualifiesSpec | klunk/players.py:280-287 | a player qualifies exactly when it meets the games and wins thresholds at every named type and `f` |
| Players.Filtered | klunk/players.py:280-287 | `filtered` never lengthens the list of players |
| Players.FilteredSpec | klunk/players.py:280-287 | before commit, `filtered` never raises and keeps, in dict order, exactly the qualifying players |
| Players.LookupNick | klunk/players.py:292-297 | `lookup` returns the first player whose nick matches ignoring case, and raises KeyError exactly when there is none |
| Players.LookupIgnoresCase | klunk/players.py:292-297 | any casing of a nick finds the same player |
| Players.Player.constructor | klunk/players.py:40-71 | a new player object holds the specified fresh state |
| Players.Player.Record | klunk/players.py:226-268 | the member-loop body moves the player to its specified recorded state |
| Players.Player.Refresh | klunk/players.py:228-234 | refreshing updates nick, elo and latest as specified |
| Players.Player.AddHistory | klunk/players.py:236-239 | the history records the elo after the match, or counts it missing |
| Players.Player.Play | klunk/players.py:241-258 | the counters and completions of a non-decay match move as specified |
| Players.Player.Count | klunk/players.py:242-258 | one game updates the counters to the specified tally |
| Players.Player.Complete | klunk/players.py:249-251 | a completion adds one, adds its duration, and lowers `pb` |
| Players.Player.Inject | klunk/players.py:262-268 | with `nether_entries` injected, the earliest nether entry of the player is appended |
| Players.Player.CommitRanked | klunk/players.py:73-81 | the imperative commit passes exactly for an uncommitted player and then reaches the specified state; otherwise AssertionError and nothing changes |
| Players.PlayerManager.constructor | klunk/players.py:187-189 | a manager starts with no players and zero totals |
| Players.PlayerManager.Load | klunk/players.py:186-278 | the constructor's body fails exactly when the specification does, with its error, and otherwise reaches the specified manager |
| Players.PlayerManager.ReadMatches | klunk/players.py:200-274 | the matches loop stops at the first match that raises, or has read them all |
| Players.PlayerManager.MatchStep | klunk/players.py:200-274 | one match raises exactly its specified error; otherwise its members are applied and the totals move |
| Players.PlayerManager.MembersStep | klunk/players.py:210-268 | the members loop raises exactly the first member error and otherwise applies every processed member |
| Players.PlayerManager.CountMatch | klunk/players.py:270-274 | a non-decay match is one more game; a ranked one must have two members (AssertionError) before it counts as a ranked game |
| Players.PlayerManager.MemberStep | klunk/players.py:213-268 | one member: the threshold checks, then its player records the match unless it is skipped |
| Players.PlayerManager.CommitPlayers | klunk/players.py:276-278 | with `no_unranked` every player is committed |
| HeadToHead.TallyInc | klunk/h2h.py:12-20 | `inc(k)` adds one win to `m1`, else to `m2`, else (for None) one draw, leaves the players and the other counters alone, and so raises the total by exactly one; any other key raises KeyError |
| HeadToHead.TallyGet | klunk/h2h.py:22-28 | `get(k)` is `w1` for `m1`, `w2` for `m2`, and raises KeyError for any other key |
| HeadToHead.H2H.constructor | klunk/h2h.py:5-10 | a new record holds the two players and zero wins and draws |
| HeadToHead.H2H.Inc | klunk/h2h.py:12-20 | the record moves to the `inc` tally on success; on KeyError nothing changes |
| HeadToHead.SortedPair | klunk/h2h.py:53 | the key is the two uuids in ascending order |
| HeadToHead.SortedPairSameSet | klunk/h2h.py:53 | two matches share a key exactly when they have the same two players, in either order |
| HeadToHead.Screen | klunk/h2h.py:39-48 | every match the screen keeps is a non-decay ranked match whose members are all requested |
| HeadToHead.ScreenSpec | klunk/h2h.py:39-48 | the screen fails (AttributeError or AssertionError) exactly when an element is not a match or a ranked non-decay match lacks two members; otherwise it keeps, in order, exactly the eligible matches |
| HeadToHead.GenerateSpec | klunk/h2h.py:33-37 | an empty dataset or one whose example is not a match raises RuntimeError |
| HeadToHead.Generate | klunk/h2h.py:30-66 | the loops over fresh `H2H` records produce exactly the specified lines or error |
| HeadToHead.TallyLoop | klunk/h2h.py:50-56 | the tally loop fails exactly when the specified tally fails, with its error, and otherwise leaves one record per pair key holding that pair's tally |
| HeadToHead.TallyStep | klunk/h2h.py:53-56 | one round finds or creates the pair's record and applies `inc` to it |
| HeadToHead.OutputLoop | klunk/h2h.py:58-65 | the output loop renders `"<nick1> vs <nick2>: <w1> - <draws> - <w2>"` per pair, in insertion order; a missing nickname raises KeyError |
| HeadToHead.LineOf | klunk/h2h.py:59-65 | a line for a record of its own pair fails exactly when a nickname is missing |
| HeadToHead.OpenedSpec | klunk/h2h.py:53-55 | creating a pair's record keeps one record per key, changes no total, and the record belongs to the match's two players |
| HeadToHead.UpdateAt | klunk/h2h.py:56 | updating a record changes only its own pair's total |
| HeadToHead.StepSpec | klunk/h2h.py:52-56 | one match succeeds exactly when its winner is accepted by `inc`, and adds one to its own pair's total only |
| HeadToHead.TalliesCount | klunk/h2h.py:52-56 | corrected: with drawn matches recorded as draws, every two-player list is tallied without error and each pair's total is its number of matches |
| HeadToHead.TalliesOnlyWins | klunk/h2h.py:52-56 | as written, a tally that succeeds had a real member as the winner of every match |
| HeadToHead.DrawnMatchRaises | klunk/h2h.py:56 | as written, any drawn match between two real players makes the tally raise KeyError |
| HeadToHead.DrawnMatchCounterexample | klunk/h2h.py:30-66 | one drawn match between A and B: as written `generate` raises; corrected it reports `A vs B: 0 - 1 - 0` |
| Dyn.Incremented | klunk/dyn.py:14-20 | `inc(st, mid)`: the same seed type extends the current run by one, another starts a run of one; the best run becomes the current run only on strict improvement, so it is always the longer of the two |
| Dyn.IncrementedValid | klunk/dyn.py:11-20 | after every `inc` the best run is at least as long as the current one |
| Dyn.RankedFrom | klunk/dyn.py:14-20 | a ranking after one or more increments keeps that invariant |
| Dyn.RankedFromAppend | klunk/dyn.py:14-20 | increments in two parts compose |
| Dyn.RankedCounts | klunk/dyn.py:11-20 | from a fresh ranking, the current run is the run of equal seed types that ends the history and the best run is the longest run in it |
| Dyn.TrailingIsRun | klunk/dyn.py:15-18 | the ending run is uniform and cannot be extended to the left |
| Dyn.RunsBounded | klunk/dyn.py:19-20 | no run in the history is longer than the best run |
| Dyn.LongestIsRun | klunk/dyn.py:19-20 | some run in the history is exactly as long as the best run |
| Dyn.RankedBest | klunk/dyn.py:19-20 | the best run records the first run to reach the longest length, its seed type and its last match id; a later tie does not replace it |
| Dyn.PlayerRanking.constructor | klunk/dyn.py:11-13 | a new ranking has empty current and best runs |
| Dyn.PlayerRanking.Inc | klunk/dyn.py:14-20 | `inc` moves the ranking to its incremented state |
| Dyn.PlayerRanking.Value | klunk/dyn.py:21-22 | `value()` is the length of the best run |
| Dyn.Streaked | klunk/dyn.py:27-37 | `seedtype_streaks` counts exactly the real ranked matches that have a seed type |
| Dyn.StreakFault | klunk/dyn.py:27-37 | `seedtype_streaks` raises KeyError `__global` exactly when a counted match finds `__global` missing and none of its members has that uuid |
| Dyn.StreakedTargets | klunk/dyn.py:33-37 | a counted match that succeeds increments every member's ranking and then `__global`; one that raises has incremented the members' rankings only, and `__global` stays missing |
| Dyn.StreaksAfterFinish | klunk/dyn.py:27-47 | once the report has popped `__global`, the next counted match raises KeyError, after `stsnum` and the members' rankings have already been updated |
| Dyn.BumpedAllAt | klunk/dyn.py:33-36 | after the members loop, a uuid's ranking exists iff it existed or the uuid is a member, and it is the old (or fresh) ranking incremented once per occurrence |
| Dyn.StreakedAllOk | klunk/dyn.py:25-37 | after a sequence of matches, `stsnum` is the number of streak-eligible matches and the table keeps its shape |
| Dyn.StreakedAllAt | klunk/dyn.py:25-37 | after a sequence of matches, only `__global` and uuids that received a seed type are ranked, each as a fresh ranking incremented by exactly its own picks |
| Dyn.GlobalOnce | klunk/dyn.py:37 | `__global` receives one increment per counted match |
| Dyn.Finished | klunk/dyn.py:47-54 | finishing raises KeyError exactly when `__global` was already removed, and reports `__global`'s best run |
| Dyn.FinishedTop | klunk/dyn.py:47-55 | the report lists min(5, players) players other than `__global`, by value descending, each with its own ranking, and no player left out has a higher value than any listed one |
| Dyn.RanksSorted | klunk/dyn.py:48 | the ranked items are ordered by value descending |
| Dyn.RanksHave | klunk/dyn.py:47-48 | every player other than `__global` is among the ranked items |
| Dyn.Streaks.constructor | klunk/dyn.py:25-26 | the table starts with a fresh `__global` ranking and a count of zero |
| Dyn.Streaks.SeedtypeStreaks | klunk/dyn.py:27-37 | the imperative update returns the specified outcome (KeyError when `__global` is missing) and leaves the table in the specified state, partly updated on KeyError, keeping its shape |
| Dyn.Streaks.IncMembers | klunk/dyn.py:33-36 | the members loop applies one `inc` per member, in order |
| Dyn.Streaks.IncOf | klunk/dyn.py:34-36 | one loop body creates the ranking when missing and increments it |
| Dyn.Streaks.Finish | klunk/dyn.py:40-57 | finishing removes `__global` and returns the specified report; on KeyError the table is unchanged |
| Splits.SplitEqOfQualified | klunk/splits.py:28-29 | an id `category.name` matches both its full form and `name` |
| Splits.SplitEqUnqualified | klunk/splits.py:28-29 | an id without a `.` matches a non-empty query exactly when the two are equal |
| Splits.HasSplitIff | klunk/splits.py:31-35 | `has_split` holds iff some timeline's id matches |
| Splits.GetSplit | klunk/splits.py:37-41 | whatever `get_split` returns is an element of the list whose id matches |
| Splits.GetSplitFirst | klunk/splits.py:37-41 | `get_split` is None exactly when `has_split` is false, and otherwise it is the first matching element |
| Splits.Has | klunk/splits.py:43-45 | `splits.has` returns no more lists than it was given |
| Splits.HasExact | klunk/splits.py:43-45 | `splits.has` keeps, in order, exactly the lists that contain the split |
| Splits.Get | klunk/splits.py:47-49 | `splits.get` has one entry per list; entry i is None exactly when list i lacks the split, and otherwise is one of its timelines |
| Splits.DumpIds | klunk/splits.py:51-53 | `dump_ids` keeps the shape of the input, and entry (i, j) is the id of timeline (i, j) |
| Splits.Registry | klunk/splits.py:23-26 | the `Split` decorator registers each command exactly under `splits.<name>` |
| Filters.UfSeasonAgrees | klunk/filters.py:17-22 | `ufSEASON(s)(m)` equals `fSEASON(m, s)`, which is true for no season and otherwise holds exactly for matches of that season |
| Filters.UfAllOfIff | klunk/filters.py:48-52 | `ufALLOF(*ps)` holds exactly when every predicate holds, so it holds when there are none |
| Filters.Filtered | klunk/filters.py:59-60 | `filtered` never lengthens the list |
| Filters.FilteredExact | klunk/filters.py:59-60 | `filtered` keeps, in order, exactly the elements that satisfy every predicate |
| Filters.FilteredNoPredicates | klunk/filters.py:59-60 | filtering with no predicates keeps everything |
| Filters.UuidSort | klunk/filters.py:55-56 | `uuid_sort` returns a permutation of its input |
| Filters.UuidSortSpec | klunk/filters.py:55-56 | the result is ordered by uuid, members with equal uuid keep their order, and a list already in uuid order is unchanged |
| ParseUtils.PartitionList | klunk/parse_utils.py:57-64 | `partition_list` returns the elements satisfying `p` and the others, each in input order; `p` holds on all of the first and none of the second, and together they are a permutation of the input |
| ParseUtils.PartitionKeepsOrder | klunk/parse_utils.py:57-64 | both halves are order-preserving sub-lists of the input |
| ParseUtils.ConsumeUntil | klunk/parse_utils.py:19-21 | the text before the first `v` and the rest from `v` on (or after it when discarding); `(s, "")` when `v` is absent; an empty `v` raises ValueError |
| ParseUtils.FormatA | klunk/parse_utils.py:25 | `template.format(a=a)` fails only with ValueError, KeyError or IndexError |
| ParseUtils.FormatStep | klunk/parse_utils.py:25 | one piece of the template: a doubled brace is one brace, a lone `}` or a trailing `{` raises ValueError, any other `{` opens a field that is parsed and rendered; the rest of the template is strictly shorter |
| ParseUtils.FormatBraceFree | klunk/parse_utils.py:25 | a template without braces formats to itself |
| ParseUtils.FormatEscaped | klunk/parse_utils.py:25 | a text with every brace doubled formats back to the text |
| ParseUtils.FormatFieldA | klunk/parse_utils.py:25 | the field `{a}` between escaped texts is replaced by `a` |
| ParseUtils.FormatLoneClose | klunk/parse_utils.py:25 | a `}` that is not doubled raises ValueError |
| ParseUtils.FormatUnclosed | klunk/parse_utils.py:25 | a `{` whose field name runs to the end of the template raises ValueError |
| ParseUtils.FormatOtherName | klunk/parse_utils.py:25 | a field naming anything other than `a` or a position raises KeyError with that name |
| ParseUtils.ConsumeToHard | klunk/parse_utils.py:23-28 | succeeds exactly when the delimiter occurs, and then splits the input around its first occurrence; otherwise it raises ParseError `Could not find <message>`, the message being `miss` (or the quoted delimiter) formatted with `a` set to the input, or raises the formatting's own error |
| ParseUtils.ConsumeStr | klunk/parse_utils.py:30-36 | after left-stripping, blank input gives `(None, "")`; a leading `'` gives the text up to the next `'`, anything else the text up to the first space (the whole rest when the delimiter is missing); the rest is what follows the dropped delimiter |
| ParseUtils.ConsumeStrWord | klunk/parse_utils.py:30-36 | a bare word followed by a space reads back as the word, leaving the text after the space |
| ParseUtils.ConsumeStrQuoted | klunk/parse_utils.py:30-36 | a quoted text without inner quotes reads back as the text, leaving what follows the closing quote |
| ParseUtils.ConsumeFunctionOfCall | klunk/parse_utils.py:46-52 | a call `name(args)rest` gives the lowercased name, the arguments and the left-stripped rest |
| ParseUtils.ConsumeFunctionRejectsSpace | klunk/parse_utils.py:48-49 | a name with a space before `(` raises ParseError |
| ParseUtils.ConsumeFunctionNeedsParen | klunk/parse_utils.py:47 | input without `(` raises ParseError `Could not find opening parenthesis for function <input>` |
| ParseUtils.ConsumeFunctionBraceName | klunk/parse_utils.py:50 | when `)` is missing, the name is formatted into the message, so a name holding an unclosed `{` raises ValueError rather than ParseError |
| ParseUtils.ParseFunctionArgsSimple | klunk/parse_utils.py:54-55 | one piece per comma plus one; each piece is the stripped, lowercased comma-free part |
| ParseUtils.ExtractAintOr | klunk/parse_utils.py:66-70 | the value of the first all-digit element (or the default) and the non-digit elements in order |

## Left out

- Wall-clock timing (`time`, `time_diff`, `log_time`, klunk/component.py:39-68): modelled as doing nothing, since the clock is outside the model.
- Console printing in `log` (klunk/component.py:72-73) and in `update` and the `seedtype_streaks_finish` report: the printed text is output only.
- The dataset loader, the live feed and the process-wide dataset table (klunk/dataset.py:13-147, 282-306): the registry is a parameter of the runtime.
- The Discord bot, the sandbox driver, the database ingestion and the stubs in klunk/commands.py, klunk/jobs.py and klunk/strings.py: I/O or plumbing outside the core.
- The runtime's local commands `vars`, `commands`, `allfuncs`, `info`, `wait`, `players`, `help`, `average`, `attrs` and `example` (klunk/runtime.py:68-107, 138-151, 160-178): they are names in the local table, and their calls go through the `ext` parameter, which answers with the command's result or exception and the result entries it added. `average` prints floating-point text; `attrs` and `example` read `__slots__` by reflection; the others print help or produce objects outside the model.
- Commands in the runtime's own table and in `basic_commands`: their bodies are outside this model; a call goes through the `ext` parameter, which cannot return a registry dataset.
- `parse_boolean`, `UUID`, `Milliseconds` and `Seconds` come from modules that are not part of this model. `parse_boolean` is a parameter; UUIDs are tagged strings that compare equal to a str with the same text; `Milliseconds` and `Seconds` are tagged integers that compare and order as their number but are not of type `int`.
- Floating point: `percentage_str`, the rate and average methods of `Player`, and `localaverage`. `Utils.Average` is stated over exact reals.
- Utils.TimeFmt: like Utils.ShortTimeFmt, it takes integers only. Python also accepts a float and truncates it with `int(x)` after the -1 test (klunk/utils.py:22-25, 34-37). So -1.0 gives `Invalid Time`, while -1.5 becomes -1 and renders `-1:59:59`; the model has no float input.
- `repr` and `format_str` renderings of values: error messages that embed a Python `repr` keep their fixed text only. `Datasets.Summarize` takes `format_str` as a parameter because it consults the global uuid table.
- ParseUtils.Render: a field `{a}` with a format spec, a `!r` or `!a` conversion, or an attribute or index after `a` raises ValueError in the model, where Python renders `a` through that spec or conversion. Only the fixed `{a}` template and a user-written function name reach the formatting.
- Python `set` content: `SUPPORTED_ITERABLES` (klunk/dataset.py:11) lists `set`, but no modelled operation produces a set, so the value type has no set case.
- Character classes are ASCII: `isdigit`, `isalpha`, `isspace` and `lower` do not cover the rest of Unicode.
- `consume_word` (a regular-expression scanner) and `peek`/`consume` of klunk/parse_utils.py are not modelled, since no other core code calls them.
- The dead or broken code: `match.iter`, the filters `fFF`, `fNOFF`, `fREALMATCH`, `fCOMPLETED` and `fDEFAULTS`, `MatchPlayer`, `leaderboard`, `top_n`, `display` and the tournament summaries. They refer to undefined names, contradict `TimelineList`, or only print.
- `dyn.json` persistence and the `dynamic_query`/`finish_query` drivers (klunk/dyn.py:4-8, 59-83): file I/O.
- Runtime.Runtime.Execute: the component log holds the parameter lines and the result-buffer lines only. The runtime's own diagnostic `log` calls (klunk/runtime.py:74, 186, 197, 213, 226, 256) are not modelled, and neither is the final `dataset.info()`.
- Runtime.TakeOf: `take n` on dict content raises TypeError for the unhashable slice, as Python before 3.12 does; from 3.12 on slices are hashable and Python raises KeyError instead.
- Datasets.Item: an index into the `ExtractFailure` class object is reported with the generic "not subscriptable" text.
- Datasets.Dataset.UpdateOverwriteDict: any non-dict content raises TypeError at the first pair; Python would assign into a list by position when the key is an integer in range.
- Language.Compiler.Compile: the log lines `compile` writes (the added parameters, the skipped-compilation note, the source line, the inserted pipe and one line per token, klunk/language.py:244-298) are not stated; the contract states the outcome, the flags set by `handle_parameters` and the untouched result buffer.
- Match.FieldOf: `hasattr` also finds methods (`extract` on every class); the model treats a method name as absent, so it yields no value where Python returns the bound method.
- Match.PlainExtractFails: for a method name such as `extract`, Python's `_extract` returns the bound method rather than `ExtractFailure`; the model gives the failure marker. A bound method equals no literal and has no order, so filter and sort outcomes are unaffected except for the message of a sort that raises.
- Match.MatchAttrFails: the methods of `QueryMatch` (`get_member`, `lowest_elo`, `type_str`, `rql_is_draw` and the others) are treated as absent names in the same way.
- Runtime.Runtime.constructor: the testing-mode note built from `datasets['all']` (klunk/runtime.py:41-43) is not modelled. The KeyError that a registry without `all` would raise there is not modelled either.
- Runtime.Runtime.Execute: the "Could not execute" branch of `try_execute` (klunk/runtime.py:239) is unreachable, because arguments are only words or call pairs.
- Match.PySorted: only integers, booleans and strings are ordered. Python also compares two lists or two tuples element by element; the model treats such keys as incomparable, so that sort raises TypeError in the model.
- Players.Player.Inject: `inject` is a set of strings, and `nether_entries` is the only key it acts on. The `localplayers` command passes a lambda there instead (klunk/runtime.py:103); it is not modelled.
- Dyn.Finished: the report's formatted strings are not modelled; it returns the best runs themselves.
- Dyn.Streaks.Finish: the `print` calls of `seedtype_streaks_finish` are left out.

## Findings

| source | as written | input that shows it | evidently intended | confidence | as-written member | corrected member |
|---|---|---|---|---|---|---|
| klunk/h2h.py:56 | `res[k].inc(m.winner)` passes the winner, and a drawn match's winner is the `__draw` marker (klunk/match.py:199). `inc` records a draw only for None (klunk/h2h.py:17-18), so it raises KeyError. | one ranked, non-decay, drawn match between players A and B, both requested | the drawn match is tallied as a draw: `A vs B: 0 - 1 - 0` | not executed | HeadToHead.DrawnMatchRaises | HeadToHead.TalliesCount |
