# Proofs about the kobold sandbox

This project models the runtimes, interpreters, translators and solvers of the kobold sandbox in Dafny and proves
what they keep. Code that works step by step is a class or a method with loops, tied by its contract to a
specification function; what the code promises is proved about that function. `dafny verify dfyconfig.toml` checks
everything.

| files | what they are about |
|---|---|
| `GatewayProtocol`, `GatewayTargets`, `GatewayAttempts`, `GatewayEvents`, `GatewayRuntime`, `GatewaySubscriptions` | The gateway's job runtime: every interleaving of enqueue, cancel and dispatchers at the granularity of its critical sections; which jobs can execute at once; how often jobs are attempted and how far they get; the terminal events; one dispatcher draining its queue; `all_done` subscriptions. |
| `AssemblyVm`, `AssemblyBlocks`, `AssemblyCorrectness`, `AssemblyRuns`, `AssemblyChat` | The assembly interpreter: label resolution, ip and step counter, LOOP and EACH bodies run as slices; the flat program against the meaning of nested blocks with forward jumps; when runs end, and a bound on their logs; when an EACH ends that lengthens the list it runs over. |
| `EventGrammar`, `EventParser`, `EventSpelling` | The event language: its grammar, the recursive-descent parser that reads exactly that grammar, and a printer whose output is read back. |
| `EventLiterals`, `AssemblyText`, `WorkflowStore`, `EventDsl`, `EventCorrectness`, `EventText` | The event compiler: from statements to text, through the comment stripper, splitter and tokeniser, to a store of nested dictionaries; and the whole way from event text to that store. |
| `Permutations`, `Sieve`, `SieveSolver`, `Cascade` | The category sieve against brute force, and the cascading rule check of the logic manifest. |
| `BehaviorState`, `BehaviorRuns`, `BehaviorTree` | Behavior nodes and trees: nested runs with tree updates in between, locks, persisted copies and revision history. |
| `DslInterpreter`, `DslRuns` | The command interpreter of behavior elements, on lists shared by reference. |
| `AtomicTable`, `AtomicRebuild` | A JSON object as table rows with dotted paths, patched and rebuilt. |
| `HypothesisGraph`, `HypothesisComponent` | The hypothesis dependency graph, its components and the check of a component. |
| `Constraints`, `ConstraintPython`, `ConstraintMeaning` | Constraint trees, their printed Python text read back by the grammar, and its value. |
| `ThinkingStripper` | The stream filter for thinking blocks. |
| `Basics`, `Text` | Options, distinctness, and strings as Python handles them. |

## What the proofs found

These are properties that one would expect and that the code does not have; each is a lemma, beside the exact
condition under which the property holds.

- A cancel that falls between the pop and the activation of a job answers true and logs its event, and the job runs all
  the same (`CancelAfterPopIsLost`). A callback that raises while a job is announced as done sends the finished job
  back to the queue or fails it (`RaisingCallbackUndoesDone`). A thread callback that raises right after the activation
  ends the dispatcher, and its job is never attempted: it stays ACTIVE for ever, unless a cancel that saw it PENDING
  before still writes CANCELLED (`CrashLosesTheJob`). Runs from the start that come to these states are given
  (`CancelIsLostInARun`, `DoneIsUndoneInARun`, `CrashInARun`).
- The lock of a dispatcher is that of its worker's base URL, and a ComfyUI job calls its own server: two such jobs of
  one server execute at once as soon as their workers have different keys (`AtOnceExactly`; `TargetExclusion` says when
  no two jobs of one target do).
- When an `all_done` handler raises, what that sweep has called stays listed, and the event of the next job that is
  finished calls it again (`TakenOffExactly`, `OnceExactly`).
- EACH runs over the list itself, so that a body that lengthens it need not end, and no step bound stops it. Such a
  body puts messages under the number of the turn, and that number has more than one name: the counter `@_each_idx`,
  and `@m._index`, as EACH writes it into the item (`EchoesForEver`). The item's content can bring a new role each turn
  too (`ContentEchoesForEver`), and so can the whole chat (`WholeEchoesForEver`). For bodies of PUT and PUT+ that put
  into the list under literals, settled variables, the number of the turn or the item's role, the exact condition for
  the end is `EachEndsExactly`; with the item's content as a role, following a number of turns that is known beforehand
  decides it (`EndsSoonOrNever`). What bounds the log is the number of turns that the run takes (`LogIsBounded`).
- A string literal of the event compiler comes back changed as soon as it has a backslash that no single quote follows
  (`LiteralRoundTrip`); a line loses its end when the string shows a semicolon outside the quotes as the comment
  stripper counts them, which looks at no escapes (`CommentKept`); `null` comes back as the text `null`, also in the
  module's own default object (`NativeDefaultsHoldNull`).
- A value stored under a dotted name is not read back when dictionaries hold each other in a circle, or when the name
  starts with `settings.` (`GetAfterSet`, with examples in `CircleCuts`).
- A sieve rule that is ready before a category is there that it uses removes every world from the solver's list, when
  it has no `and` and `or`; the list is the brute-force list exactly when no rule is early like that, or there is
  nothing to lose (`SieveIsBruteForceExactly`, with an example in `UnspelledRuleLosesAll`). Being early takes a text
  that spells out neither some category that the rule uses nor any later one. A rule that names an absent category or
  value empties the solver's list too, while the module's own verifier lets it pass (`SolveIsVerifyExactly`).
- A handler's assignment to a field of a behavior node that is not running is gone when that node runs, unless there is
  no persisted copy yet or it held the same (`WriteToIdleNodeIsLost`). This is about assignments: after a run that
  ended in an exception, an append in place to a list that node and copy share does reach the next run. And the refresh
  at the head of the loop changes a node with two different elements of one id (`HeadRefreshIsIdentity`).
- A name without a sigil is written to the node's data and read as itself (`ReadAfterWrite`), so that appending under
  it always leaves a list of one item (`AppendGrows`).
- A list written out in a command is one list: what is appended to it is still there when the command runs again
  (`WrittenListIsShared`).
- A key with a dot comes back as nested keys (`DottedKeyIsSplit`).
- An empty conjunction is printed as the empty tuple, which is false (`AndIsRight`), and a lone item in parentheses is
  no tuple: the sum, the comparison and the membership look into the item itself (`LoneSumIsRight`,
  `LoneDifferenceIsRight`, `LoneOptionIsRight`).
- An opening tag is missed when more than twelve characters are held back before it is complete, and characters held
  back before a tag that is seen are dropped with it (`OpeningTag`).
- The comment of `ThinkingStripper.feed` speaks of white space after a closing tag being consumed; the code does not do
  that, and the model follows the code.

## Model

| member | source | states |
|---|---|---|
| GatewayProtocol.Conservation | src/kobold_sandbox/gateway_runtime.py:224-381 | in every interleaving a job id sits in at most one queue slot or thread, a PENDING or ACTIVE job in exactly one, and no unknown id anywhere |
| GatewayProtocol.ApplyKeepsTokens | src/kobold_sandbox/gateway_runtime.py:322-381 | every single step keeps the token invariant of queues, threads and live jobs |
| GatewayProtocol.EndpointExclusion | src/kobold_sandbox/gateway_runtime.py:316-360 | two threads executing jobs of workers with the same lock key are the same thread, in every run |
| GatewayTargets.TargetExclusion | src/kobold_sandbox/gateway_runtime.py:322-412 | in a run in which jobs of workers with a dispatcher have equal lock keys wherever they have equal targets (the ComfyUI server, or else the base URL), two threads executing jobs of one target are the same thread |
| GatewayTargets.AtOnceExactly | src/kobold_sandbox/gateway_runtime.py:322-412 | two jobs, whatever their targets, can execute at once in some run from the start exactly when their workers have different lock keys |
| GatewayProtocol.AttemptsAreBounded | src/kobold_sandbox/gateway_runtime.py:73-74 | a job is attempted at most retry + 1 times, once if retry is negative |
| GatewayProtocol.QuietWorkerIsFinished | src/kobold_sandbox/gateway_runtime.py:333-381 | in any reachable state, an empty queue of a worker that no thread works for means that all its jobs are DONE, FAILED or CANCELLED |
| GatewayProtocol.CrashLosesTheJob | src/kobold_sandbox/gateway_runtime.py:348-356 | a dispatcher that dies between activation and the try block keeps its job for ever, unattempted and never DONE or FAILED |
| GatewayProtocol.PopLeaves | src/kobold_sandbox/gateway_runtime.py:335-342 | a pop takes a PENDING job out of the queue, keeps every other PENDING job in it, and leaves a sound queue |
| GatewayAttempts.JobIsWithinBudget | src/kobold_sandbox/gateway_runtime.py:322-381 | from any reachable state on, whatever threads, cancels, crashes and callbacks do, a job is attempted at most once more than it has retries left, and not at all when it is in no queue and with no thread |
| GatewayAttempts.WorkerIsWithinBudget | src/kobold_sandbox/gateway_runtime.py:322-381 | in any interleaving without new jobs the dispatchers of a worker make at most the sum of retries left + 1 attempts over its jobs that are still about |
| GatewayAttempts.StepsAreBounded | src/kobold_sandbox/gateway_runtime.py:322-381 | from any reachable state on, whatever else goes on, the dispatchers make a bounded number of steps with the jobs that are there |
| GatewayAttempts.AtRestAllIsFinished | src/kobold_sandbox/gateway_runtime.py:322-381 | in a reachable state in which no job can be moved on, every job of a worker with a waiting dispatcher is DONE, FAILED or CANCELLED, or with a dispatcher that died |
| GatewayEvents.OneTerminalEvent | src/kobold_sandbox/gateway_runtime.py:522-529 | in a run that is calm for a job it has exactly one terminal event if it is finished and its event is not owed any more, and none otherwise, whatever happens to other jobs |
| GatewayEvents.TerminalIsAbsorbing | src/kobold_sandbox/gateway_runtime.py:262-381 | in a run that is calm for a job its DONE, FAILED or CANCELLED status never changes |
| GatewayEvents.OverwritesExactly | src/kobold_sandbox/gateway_runtime.py:262-381 | the steps that change a finished job's status are exactly these: activation, completion, handling of an exception, a late cancel |
| GatewayEvents.CancelAfterPopIsLost | src/kobold_sandbox/gateway_runtime.py:262-349 | from any state with a popped PENDING job there is a run in which the cancel logs its event and the job is ACTIVE afterwards |
| GatewayEvents.RaisingCallbackUndoesDone | src/kobold_sandbox/gateway_runtime.py:368-381 | a DONE job whose announcement raises is PENDING again while retries are left, FAILED otherwise |
| GatewayEvents.CancelIsLostInARun | src/kobold_sandbox/gateway_runtime.py:224-349 | such a lost cancel happens in a run from the start |
| GatewayEvents.DoneIsUndoneInARun | src/kobold_sandbox/gateway_runtime.py:224-381 | so does the undoing of a finished job |
| GatewayEvents.CrashInARun | src/kobold_sandbox/gateway_runtime.py:224-356 | and the death of a dispatcher with an ACTIVE job |
| GatewayRuntimes.DrainFinishes | src/kobold_sandbox/gateway_runtime.py:322-381 | one dispatcher empties its queue within the sum of retries left + 1 attempts, after which no job of the worker waits |
| GatewayRuntimes.DrainIsFair | src/kobold_sandbox/gateway_runtime.py:357-381 | draining leaves finished jobs and other workers' jobs alone, and a job is DONE by an attempt that returned, FAILED by one that raised |
| GatewayRuntimes.GatewayRuntime.Enqueue | src/kobold_sandbox/gateway_runtime.py:224-253 | a known id changes nothing; a new job is registered PENDING and put in front when its priority is high, else at the back |
| GatewayRuntimes.GatewayRuntime.Cancel | src/kobold_sandbox/gateway_runtime.py:262-270 | answers true exactly for a PENDING job, which is then CANCELLED with its event; changes nothing otherwise |
| GatewayRuntimes.GatewayRuntime.PopJob | src/kobold_sandbox/gateway_runtime.py:333-342 | the loop finds the first PENDING job of the queue and drops what stood before it |
| GatewayRuntimes.GatewayRuntime.Dispatch | src/kobold_sandbox/gateway_runtime.py:348-381 | one turn: DONE with its event, back to the front of the queue, or FAILED with its event |
| GatewayRuntimes.GatewayRuntime.DrainWorker | src/kobold_sandbox/gateway_runtime.py:322-381 | the loop of a lone dispatcher ends with an empty queue and all jobs of the worker finished |
| GatewaySubscriptions.FiresExactlyOnce | src/kobold_sandbox/gateway_runtime.py:522-576 | while no callback or handler raises, a subscription on exact ids fires once, in the event that finishes its last job, and never again, over any further steps |
| GatewaySubscriptions.OnceExactly | src/kobold_sandbox/gateway_runtime.py:356-381 | a subscription called in the event of a finished job is never called again, over all further steps, exactly when its own handler and every later one of that sweep return; otherwise the event of another job can call it again |
| GatewaySubscriptions.TakenOffExactly | src/kobold_sandbox/gateway_runtime.py:556-562 | a called subscription is taken off the list exactly when its own handler and every later one of its sweep return |
| GatewaySubscriptions.FiresAtMostOnce | src/kobold_sandbox/gateway_runtime.py:522-562 | over any steps, events cut before their sweep included, in which no handler raises from its own on, a subscription is either still listed or has fired, as often as it was listed |
| GatewaySubscriptions.FiresOnlyWhenAllDone | src/kobold_sandbox/gateway_runtime.py:556-576 | a subscription fires only if, in the state at the start of the sweep, every pattern has a match and all matches are DONE |
| GatewaySubscriptions.FireMovesSubs | src/kobold_sandbox/gateway_runtime.py:556-562 | a sweep takes just what it called off the list if all its handlers return, and nothing if one raises |
| GatewaySubscriptions.EventHub.CheckAllDone | src/kobold_sandbox/gateway_runtime.py:564-576 | the loops decide whether all jobs that a subscription waits for are DONE |
| GatewaySubscriptions.EventHub.FireAllDone | src/kobold_sandbox/gateway_runtime.py:556-562 | the sweep runs the handlers in list order up to one that raises, jobs that they add being seen by later ones, and then removes those that fired if none raised |
| AssemblyVm.ResolveLabelsLoop | src/kobold_sandbox/assembly_dsl.py:146-176 | the two passes drop the labels and turn references into relative offsets |
| AssemblyVm.RunInstructions | src/kobold_sandbox/assembly_dsl.py:658-793 | the interpreter loop computes the run: outcome, context and log length |
| AssemblyCorrectness.SimulateStmt | src/kobold_sandbox/assembly_dsl.py:671-784 | the first instruction of a plain line, a LOOP or an EACH, wherever its code stands, takes the machine behind that code with the context that the statement means, or ends as the statement ends |
| AssemblyVm.RunPlain | src/kobold_sandbox/assembly_dsl.py:598-623 | a call of a user function runs its body in a child context with an empty function table |
| AssemblyVm.RunLoopBody | src/kobold_sandbox/assembly_dsl.py:715-735 | LOOP runs its slice while the condition holds, at most max times |
| AssemblyVm.RunEachBody | src/kobold_sandbox/assembly_dsl.py:737-778 | EACH runs its slice for each item with binding and write-back, over the list as it is at each turn, and is cut off as Running when it would take more turns than are followed |
| AssemblyBlocks.CollectBlock | src/kobold_sandbox/assembly_dsl.py:149-158 | the first pass finds every label of nested blocks where the nesting puts it |
| AssemblyBlocks.ResolveBlock | src/kobold_sandbox/assembly_dsl.py:161-176 | the second pass turns the labels of nested blocks into the lengths of their bodies and the distances of their jumps |
| AssemblyBlocks.ResolveTwice | src/kobold_sandbox/assembly_dsl.py:146-221 | resolving labels a second time changes nothing, for any program |
| AssemblyCorrectness.SimulateJump | src/kobold_sandbox/assembly_dsl.py:702-713 | a taken jump goes on with the first instruction after its label or, if that is outside the slice, ends the slice; an untaken one goes on behind itself |
| AssemblyCorrectness.JumpLands | src/kobold_sandbox/assembly_dsl.py:149-176 | the offset of a jump leads to the very place where the code behind its label stands, or past the end of its block |
| AssemblyCorrectness.SimulateBlock | src/kobold_sandbox/assembly_dsl.py:658-793 | from any place where a block's code begins and reaches to the end of the list, the machine ends as the block means, with any step bound of one per instruction or more |
| AssemblyCorrectness.BoundNeverStops | src/kobold_sandbox/assembly_dsl.py:662-665 | with any bound of at least one step per instruction a block runs to its meaning, so that 100 per instruction never stops it |
| AssemblyCorrectness.FlatProgramMeansBlock | src/kobold_sandbox/assembly_dsl.py:146-793 | removing labels, resolving them and running the flat list gives the big-step meaning of nested LOOPs and EACHs with any forward jumps, crossing or shared, within a block or out of it, errors and unended EACHs included |
| AssemblyRuns.LogIsBounded | src/kobold_sandbox/assembly_dsl.py:658-793 | a run on which no EACH takes more than k turns, under LOOP limits of at most k, has a log within a closed bound in program length and k, and allowing more turns does not change it |
| AssemblyRuns.RunMore | src/kobold_sandbox/assembly_dsl.py:737-778 | a run that has ended is the same for every larger number of turns |
| AssemblyRuns.TameLogIsBounded | src/kobold_sandbox/assembly_dsl.py:658-793 | so does every run in an invariant of contexts that the program keeps and that bounds the lists of its EACHs: it ends, in the invariant |
| AssemblyRuns.TameRunEnds | src/kobold_sandbox/assembly_dsl.py:658-793 | a run from a context of such an invariant ends, and in one |
| AssemblyRuns.NoEachEnds | src/kobold_sandbox/assembly_dsl.py:658-793 | a program without EACH, in itself and in its functions, always ends |
| AssemblyRuns.ClosedIsTame | src/kobold_sandbox/assembly_dsl.py:598-623 | what the plain operations, openings, bindings, write-backs and calls keep, every program with any functions keeps |
| AssemblyRuns.LogIsBoundedByLoops | src/kobold_sandbox/assembly_dsl.py:715-735 | without EACH the bound asks nothing but the LOOP limits |
| AssemblyChat.EachEndsExactly | src/kobold_sandbox/assembly_dsl.py:737-778 | an EACH over a chat's messages, whose body puts into them under roles that are literals, variables that hold no part of a chat, the number of the turn (counter or item's `_index`) or the item's role, ends exactly when the list is empty, or no line puts into it under the number of the turn, or all its members are messages of different roles and these roles, with those put, are numerals |
| AssemblyChat.NeverEnds | src/kobold_sandbox/assembly_dsl.py:737-778 | whatever else the lines read, an EACH over a list with a member never ends if one puts the number of the turn and the list has a surplus or a role that is no numeral, or gets one in each turn |
| AssemblyChat.EndsSoonOrNever | src/kobold_sandbox/workflow_dsl.py:1035-1045 | with the item's content as a role too, for PUT lines whose contents are known and are the number of the turn only if a role is: the EACH ends exactly when it ends within as many turns as the names and numbers of list and lines allow, and always if no role is the number of the turn |
| AssemblyChat.EchoesForEver | src/kobold_sandbox/assembly_dsl.py:753-759 | the program of three lines that puts under the number of the turn, by the counter or by the item's `_index`, is still running after any number of turns |
| AssemblyChat.ContentEchoesForEver | src/kobold_sandbox/assembly_dsl.py:435-450 | so is the one that puts the number of the turn under the item's content, where turn n finds the number n - 1 |
| AssemblyChat.WholeEchoesForEver | src/kobold_sandbox/assembly_dsl.py:435-450 | so is the one that puts under the whole chat, if what a chat is shown as is never one of its roles |
| EventGrammar.ReadIsWritten | src/kobold_sandbox/event_dsl.py:42-212 | a text is accepted exactly when the grammar has it, with any white space and trailing commas, and then as the grammar's one tree |
| EventGrammar.ValueRead | src/kobold_sandbox/event_dsl.py:80-102 | what is read as a value is written so by the grammar, up to the very place where reading stops |
| EventGrammar.ValueShown | src/kobold_sandbox/event_dsl.py:80-102 | every well-formed value is read, whole and no further, before any text |
| EventGrammar.MembersShown | src/kobold_sandbox/event_dsl.py:104-124 | the same for the members of an object |
| EventGrammar.NumberShown | src/kobold_sandbox/event_dsl.py:170-181 | numbers are read to their last digit, with a point at most once |
| EventParsers.Parser.ParseString | src/kobold_sandbox/event_dsl.py:144-161 | the loop gives the characters of a quoted text with its escapes resolved, and leaves the cursor behind the quote |
| EventParsers.Parser.ParseNumber | src/kobold_sandbox/event_dsl.py:170-181 | the loops take the longest number, and it is refused when it has no digit |
| EventParsers.Parser.ParseValue | src/kobold_sandbox/event_dsl.py:80-102 | the value that the grammar's tree stands for, or a refusal, and the cursor behind it |
| EventParsers.Parser.ParseObject | src/kobold_sandbox/event_dsl.py:104-124 | the loop fills the object in order; a repeated key keeps its place and takes the last value |
| EventParsers.Parser.ParseArray | src/kobold_sandbox/event_dsl.py:126-142 | the loop lists the items |
| EventParsers.ParseEventDsl | src/kobold_sandbox/event_dsl.py:42-216 | the statements of the text in order, or a refusal when it is outside the grammar |
| EventSpelling.PrintedProgramIsParsed | src/kobold_sandbox/event_dsl.py:42-212 | any statements without floats, whatever characters their names, keys and texts have, can be written and are parsed back |
| EventTexts.CompilesWhatIsWritten | src/kobold_sandbox/event_dsl.py:42-258 | a text compiles exactly when the grammar has it as a tree whose statements compile, and to the code of those |
| EventTexts.WrittenProgramMeans | src/kobold_sandbox/event_dsl.py:42-258 | a text of plain emits in any layout, parsed, compiled, tokenised and run, leaves the store that the emits mean |
| EventLiterals.LiteralRoundTrip | src/kobold_sandbox/event_dsl.py:313-318 | un-escaping by the four replaces gives the escaped string back exactly when every backslash stands before a single quote |
| EventLiterals.EscapeThenUnescape | src/kobold_sandbox/assembly_dsl.py:273-278 | what any string comes back as |
| EventLiterals.UnescapeIsOnePass | src/kobold_sandbox/assembly_dsl.py:276 | the four replaces in sequence are one pass over the text |
| EventLiterals.BackslashIsLost | src/kobold_sandbox/event_dsl.py:317 | two strings with a backslash that come back changed |
| AssemblyText.SplitAsmArgs | src/kobold_sandbox/assembly_dsl.py:99-143 | the splitter loop computes the arguments |
| AssemblyText.SplitLiterals | src/kobold_sandbox/assembly_dsl.py:99-143 | any strings, rendered as literals and joined by comma and space, are split into exactly those literals |
| AssemblyText.SplitJoined | src/kobold_sandbox/assembly_dsl.py:99-143 | the same for any tokens that the splitter takes in whole |
| AssemblyText.StripCommentLoop | src/kobold_sandbox/assembly_dsl.py:62-75 | the quote-toggling loop cuts at the first semicolon outside quotes |
| AssemblyText.CommentKept | src/kobold_sandbox/assembly_dsl.py:62-75 | a line that ends in a literal is kept exactly when the string shows no semicolon outside the quotes |
| AssemblyText.CommentSafeSimply | src/kobold_sandbox/assembly_dsl.py:64-75 | a string without double quotes or without semicolons is kept |
| AssemblyText.TokeniseLine | src/kobold_sandbox/assembly_dsl.py:58-96 | a line becomes opcode, arguments and flags, or nothing |
| AssemblyText.ParseProgram | src/kobold_sandbox/assembly_dsl.py:179-262 | the line loop gives the resolved instructions and the functions with their parameters, outputs and resolved bodies, or fails at a header that it cannot read |
| AssemblyText.HeaderIsRead | src/kobold_sandbox/assembly_dsl.py:224-233 | a function header made of a name, parameters and outputs is read as just those |
| AssemblyText.FnBodyIsResolved | src/kobold_sandbox/assembly_dsl.py:199-262 | the body of a function is its lines with labels resolved; that this is done twice changes nothing |
| AssemblyText.SplitJoinedLines | src/kobold_sandbox/event_dsl.py:234 | lines without line breaks, joined by newlines, are read back as they were |
| WorkflowStore.WorkflowContext.Set | src/kobold_sandbox/workflow_dsl.py:366-379 | the walk makes missing dictionaries, wraps plain values and assigns at the end of the path |
| WorkflowStore.WorkflowContext.Read | src/kobold_sandbox/workflow_dsl.py:338-354 | the walk through dictionaries and attributes, settings aside |
| WorkflowStore.GetAfterSet | src/kobold_sandbox/workflow_dsl.py:338-379 | a leaf without attributes set under a name is read back exactly when, for a name of the settings, the setting is that value, and otherwise the walk makes no circle through the assigned key or the value is null |
| WorkflowStore.WalkAfterSet | src/kobold_sandbox/workflow_dsl.py:338-379 | whatever the dictionaries hold, reading the path that was set is reading the rest of the path behind the first passing of the assigned key from the new value |
| WorkflowStore.AliasesShare | src/kobold_sandbox/workflow_dsl.py:366-379 | a value set through one name of a dictionary is read through another |
| WorkflowStore.CircleCuts | src/kobold_sandbox/workflow_dsl.py:338-379 | one circle, and one name of the settings, whose value is not read back |
| EventDsl.CompileEmit | src/kobold_sandbox/event_dsl.py:237-258 | the lines of an emit: defaults, data, check; None for an unknown defaults object |
| EventDsl.CompileEventDsl | src/kobold_sandbox/event_dsl.py:219-234 | the text of a program, with the generate call and its listeners |
| EventCorrectness.MovStores | src/kobold_sandbox/assembly_dsl.py:345-353 | the MOV of a field line stores under its dotted name the very value that the data entry means |
| EventCorrectness.ReadsBack | src/kobold_sandbox/assembly_dsl.py:269-310 | a data value is read back as itself exactly when it is not null and its text has no backslash but before a single quote |
| EventCorrectness.LineIsMov | src/kobold_sandbox/event_dsl.py:248-251 | the line of a field is tokenised as one MOV of register and value |
| EventCorrectness.CompiledProgramMeans | src/kobold_sandbox/event_dsl.py:219-258 | the compiled text of a plain program, tokenised and run from any store, leaves exactly the store got by storing defaults and then data of the emits in order |
| EventCorrectness.NativeDefaultsHoldNull | src/kobold_sandbox/event_dsl.py:27-34 | the native default object holds nulls, which come back as the text null |
| Permutations.PermsExact | tools/sieve_engine.py:35 | the list holds exactly the permutations of 0 to n - 1 |
| Permutations.PermsInOrder | tools/sieve_engine.py:35 | the list is strictly ascending and not empty |
| Sieve.PrintSpells | tools/sieve_engine.py:4-11 | a rule printed from its expression spells out every category it uses |
| Sieve.SieveIsBruteForce | tools/sieve_engine.py:78-116 | pruning category by category leaves exactly the brute-force list, in the same order: for all rules when errors pass, and without early rules when they fail |
| Sieve.SieveIsBruteForceExactly | tools/sieve_engine.py:63-116 | for rules without `and` and `or` it does so exactly when no rule is ready before its last category, or brute force finds nothing either |
| Sieve.EarlyLosesAll | tools/sieve_engine.py:63-116 | a rule that is ready before a category that it uses empties the list |
| Sieve.PrintedRulesAreSolved | tools/sieve_engine.py:4-11 | rules printed from their expressions are solved exactly as by brute force, whether errors pass or fail |
| SieveSolver.SolutionsExact | tools/sieve_engine.py:78-116 | the solutions are strictly ascending and are exactly the assignments on which every rule is true without an error |
| SieveSolver.CategoryOrderIrrelevant | tools/sieve_engine.py:31-35 | a solution under one category order is, relisted, a solution under any other |
| SieveSolver.SolveIsVerifyExactly | tools/sieve_engine.py:142-188 | for rules without `and` and `or` solver and verifier agree exactly when every name is there and no rule is early, or the verifier keeps nothing |
| SieveSolver.UnresolvedLosesAll | tools/sieve_engine.py:46-104 | a rule that names an absent category or value empties the list of the solver |
| SieveSolver.SolveIsVerifyWhenResolved | tools/sieve_engine.py:142-188 | for all rules, `and` and `or` included, they agree when every name is there and no rule is early |
| SieveSolver.SmartSieveEngine.Solve | tools/sieve_engine.py:78-116 | the loop computes the solutions, early return included |
| SieveSolver.SmartSieveEngine.RuleMentionsCats | tools/sieve_engine.py:63-69 | the set of categories whose names occur in the rule |
| SieveSolver.SmartSieveEngine.IsRuleReady | tools/sieve_engine.py:71-76 | no category after the current one is mentioned |
| SieveSolver.VerifyLogic | tools/sieve_engine.py:142-204 | the stable worlds are the brute-force list, and each branch gives those of them that satisfy its rules |
| Cascade.VerifyLogic | src/kobold_sandbox/logic_manifest.py:322-408 | the loop computes pool size and claims |
| Cascade.KeptIsMaximal | src/kobold_sandbox/logic_manifest.py:365-391 | the pool is never empty, is exactly the permutations satisfying every rule not declined, in order, and adding a declined rule back leaves none |
| Cascade.VerdictMeans | src/kobold_sandbox/logic_manifest.py:378-391 | declined, accepted and confirmed, each as consistency with or entailment by the rules kept before |
| Cascade.CountsChain | src/kobold_sandbox/logic_manifest.py:393-408 | each claim starts from the worlds that the one before left, and the last leaves the stable worlds |
| Cascade.NothingDeclined | src/kobold_sandbox/logic_manifest.py:380-382 | no rule is declined exactly when all rules together have a world |
| Cascade.PoolIsKeptRules | src/kobold_sandbox/logic_manifest.py:369-391 | from any pool, the final pool is the first one filtered by the kept rules, in order |
| BehaviorState.RefreshWhileLocked | src/kobold_sandbox/behavior_orchestrator.py:171-223 | a locked node keeps lock, current id and that element under any payload; its other elements and its body are the payload's |
| BehaviorState.HeadRefreshIsIdentity | src/kobold_sandbox/behavior_orchestrator.py:386-390 | on a node equal to its copy the refresh at the loop head changes nothing exactly when elements that share the id are equal |
| BehaviorState.FirstRefreshDropsEdits | src/kobold_sandbox/behavior_orchestrator.py:446-450 | after the first head refresh body, entry, revision and the other elements are those of the persisted copy |
| BehaviorState.PersistKeepsHistory | src/kobold_sandbox/behavior_orchestrator.py:452-465 | a persist raises the revision by one and keeps the history exactly the last at most twenty revisions, older entries unchanged |
| BehaviorRuns.RunKeepsStack | src/kobold_sandbox/behavior_orchestrator.py:381-426 | over whole runs with any payloads in between, every node on the run stack is present, locked and on its unchanged element |
| BehaviorRuns.RefreshTakesTheRest | src/kobold_sandbox/behavior_orchestrator.py:262-291 | after a tree refresh the nodes are the payload's and the locked ones; running nodes take all but their element from the payload |
| BehaviorRuns.LeaveReleases | src/kobold_sandbox/behavior_orchestrator.py:404-416 | leaving a handler, by result or exception, releases the lock, finds the next element, and leaves the node equal to its copy |
| BehaviorRuns.MissReleases | src/kobold_sandbox/behavior_orchestrator.py:386-416 | so does the exit by an element that is not there |
| BehaviorRuns.WritesReachNextElement | src/kobold_sandbox/behavior_orchestrator.py:386-424 | from one element to the next a node keeps data, kind, elements and the rest; only the loop's own notes and the claims' states are added |
| BehaviorRuns.NoWriteIsLost | src/kobold_sandbox/behavior_orchestrator.py:386-424 | over any stretch of a run without outside edits a node written to only while it runs has exactly the body that the writes and notes made one after the other, and without a write its data are the same |
| BehaviorRuns.WriteToIdleNodeIsLost | src/kobold_sandbox/behavior_orchestrator.py:386-390 | an assignment to a node that is not running reaches its next run exactly when the node has no copy or the copy held those data already |
| BehaviorRuns.HistoriesOverRun | src/kobold_sandbox/behavior_orchestrator.py:446-465 | from the initialised state, without outside edits, histories are exact at all times, entries never change, revisions never go back |
| BehaviorTrees.BehaviorNode.RefreshFromSerialized | src/kobold_sandbox/behavior_orchestrator.py:171-183 | the node becomes its refreshed content, copy and history kept |
| BehaviorTrees.BehaviorNode.CopyFrom | src/kobold_sandbox/behavior_orchestrator.py:185-223 | field by field, with the locked element merged in |
| BehaviorTrees.MergeElements | src/kobold_sandbox/behavior_orchestrator.py:213-223 | the merge loop |
| BehaviorTrees.BehaviorNode.Persist | src/kobold_sandbox/behavior_orchestrator.py:452-462 | one more revision, copied and put into the history, which keeps its twenty newest |
| BehaviorTrees.Trim | src/kobold_sandbox/behavior_orchestrator.py:459-461 | at most twenty entries stay, all newer than those dropped |
| BehaviorTrees.BehaviorTree.RefreshFromSerialized | src/kobold_sandbox/behavior_orchestrator.py:262-291 | the nodes become the refreshed nodes: known ones in place, new ones added, stale unlocked ones gone |
| BehaviorTrees.BehaviorTree.BeginElement | src/kobold_sandbox/behavior_orchestrator.py:386-396 | head refresh, look-up and lock of one node, all others unchanged |
| BehaviorTrees.BehaviorTree.EndElement | src/kobold_sandbox/behavior_orchestrator.py:403-416 | persist, unlock, persist, refresh of one node, two tree revisions |
| BehaviorTrees.NextAfter | src/kobold_sandbox/behavior_orchestrator.py:485-491 | the id after the first element of that id, or none |
| DslRuns.RunIsBounded | src/kobold_sandbox/dsl_interpreter.py:537-557 | any run logs at most as many entries as nesting and max limits allow, and after a halt at any depth the halt is the last thing logged |
| DslRuns.GrowingLoopStops | src/kobold_sandbox/dsl_interpreter.py:426-454 | a loop that appends to the very list it runs over runs exactly max times |
| DslRuns.LoopRunsOverFinalList | src/kobold_sandbox/dsl_interpreter.py:435-443 | a loop that nothing cuts short runs once per item of the list as it is in the end, up to max |
| DslRuns.WrittenListIsShared | src/kobold_sandbox/dsl_interpreter.py:133-142 | a list written in a command keeps what was appended to it |
| DslInterpreter.ReadAfterWrite | src/kobold_sandbox/dsl_interpreter.py:64-102 | a write is read through every reference to its cell and no other; read back under its own name exactly when that has a sigil or is the value |
| DslInterpreter.AppendGrows | src/kobold_sandbox/dsl_interpreter.py:446-454 | the cell then holds the list that was there, grown for all who hold it, or a new one; no other list or cell changes |
| DslRuns.DslContext.ExecCmd | src/kobold_sandbox/dsl_interpreter.py:356-518 | one command: new context, and whether it halted or raised |
| DslRuns.DslContext.RunLoop | src/kobold_sandbox/dsl_interpreter.py:426-443 | the for_each loop over the live list |
| DslRuns.DslContext.RunCommands | src/kobold_sandbox/dsl_interpreter.py:537-557 | the command loop: a halt is caught and noted, another exception goes on |
| AtomicTable.FlattenJson | src/kobold_sandbox/atomic_dsl_api.py:105-133 | the rows list every cell of the object once, with path below the prefix, empty or not, type, group and aliases |
| AtomicRebuild.RowsToJson | src/kobold_sandbox/atomic_dsl_api.py:136-152 | the loop rebuilds the object, or meets a value that is no object on its way |
| AtomicRebuild.RebuildFromRows | src/kobold_sandbox/atomic_dsl_api.py:105-152 | from rows in any order the object comes back without its cell-less sub-objects exactly when no key on the way to a cell contains a dot |
| AtomicRebuild.ApplyPatch | src/kobold_sandbox/atomic_dsl_api.py:177-191 | rows with the path get value and type, all others stay |
| AtomicRebuild.PatchThenRebuild | src/kobold_sandbox/atomic_dsl_api.py:136-191 | patching the row of a cell and rebuilding is assigning to that cell |
| AtomicRebuild.SetChangesOnly | src/kobold_sandbox/atomic_dsl_api.py:145-151 | an assignment changes what stands at its path and nothing apart from it |
| AtomicRebuild.CoerceOwnType | src/kobold_sandbox/atomic_dsl_api.py:155-174 | a value of the declared type is not changed |
| AtomicRebuild.CellsApart | src/kobold_sandbox/atomic_dsl_api.py:108-122 | no cell's path leads on from another's |
| AtomicRebuild.DottedKeyIsSplit | src/kobold_sandbox/atomic_dsl_api.py:145 | a dotted key comes back as nested keys |
| HypothesisGraph.IterNodes | src/kobold_sandbox/assertions.py:303-308 | the explicit stack yields the nodes in preorder |
| HypothesisGraph.BuildDependencyGraph | src/kobold_sandbox/hypothesis_runtime.py:52-86 | the loops build exactly the graph of named links and shared cells, variables and terms |
| HypothesisGraph.GraphIsSymmetric | src/kobold_sandbox/hypothesis_runtime.py:57-81 | the graph is symmetric |
| HypothesisComponent.ComponentFromGraph | src/kobold_sandbox/hypothesis_runtime.py:133-155 | the search returns, once each, exactly the active nodes reachable from the start through active nodes |
| HypothesisComponent.ReachesIsEquivalence | src/kobold_sandbox/hypothesis_runtime.py:143-155 | in a symmetric graph reaching is an equivalence on the active nodes |
| HypothesisComponent.EvaluateConnected | src/kobold_sandbox/hypothesis_runtime.py:88-131 | the check covers the component, reports those that pass, and their cells and consequences without duplicates |
| HypothesisComponent.SameFromAnyMember | src/kobold_sandbox/hypothesis_runtime.py:88-131 | from any member of a component the report has the same elements |
| Constraints.MergeVars | src/kobold_sandbox/constraints.py:262-268 | each name once, where it occurs first |
| Constraints.FirstsInOrder | src/kobold_sandbox/constraints.py:262-268 | merged names stand in the order of their first occurrences |
| Constraints.MeaningNeedsVariables | src/kobold_sandbox/constraints.py:23-268 | the variables are the names of the tree in first-occurrence order, none twice, and the meaning depends on nothing else |
| ConstraintPython.ReadsPred | src/kobold_sandbox/constraints.py:23-245 | a printed predicate, followed by anything, is read up to its end as the tree it stands for |
| ConstraintMeaning.PrintedConstraintMeans | src/kobold_sandbox/constraints.py:23-259 | a well-sized constraint, printed and read back by the grammar, evaluates to its logical meaning |
| ConstraintMeaning.AndIsRight | src/kobold_sandbox/constraints.py:202-207 | a conjunction of well-sized items is printed right exactly when it has an item |
| ConstraintMeaning.LoneSumIsRight | src/kobold_sandbox/constraints.py:24-32 | exactly-one of a single item is right exactly when the item raises, or has one true element or none at all; never for a number |
| ConstraintMeaning.LoneDifferenceIsRight | src/kobold_sandbox/constraints.py:35-42 | all-different of a single item is right exactly when the item raises, or is a text or tuple without repeated elements, or cannot be in a set |
| ConstraintMeaning.LoneOptionIsRight | src/kobold_sandbox/constraints.py:189-196 | membership among one option is right exactly when a side raises or, by the kind of the option, it agrees: never for a number, for a text if the left side is that text or a text that does not occur in it |
| ThinkingStrippers.ThinkingStripper.FeedToken | tools/kobold_nothink_proxy.py:109-138 | the loop computes new state and output of a token |
| ThinkingStrippers.ThinkingStripper.FlushRest | tools/kobold_nothink_proxy.py:140-146 | what is held back outside a block is sent, an open block is dropped |
| ThinkingStrippers.ChunksDoNotMatter | tools/kobold_nothink_proxy.py:109-138 | the total output and the state are the same for every chunking |
| ThinkingStrippers.UntaggedPasses | tools/kobold_nothink_proxy.py:116-129 | without an opening tag output plus flush is the input, with at most twelve characters held back |
| ThinkingStrippers.OpeningTag | tools/kobold_nothink_proxy.py:116-129 | a tag is seen exactly when it is complete before more than twelve characters are held |
| ThinkingStrippers.BlocksAreRemoved | tools/kobold_nothink_proxy.py:116-146 | when `<` occurs only in closed blocks the output is exactly the text outside them |

## Left out

- HTTP calls, ComfyUI and LLM execution, routers, the stream forwarding, the command line, git and file stores:
  `_execute_job`, GEN, CALL of Python functions, PUT, PARSE and CMP, handlers, callbacks, agents and atoms are oracles
  that return a value or raise.
- Futures and asynchronous GEN, wall-clock times, log texts and previews, `shutdown`, and thread start-up beyond one
  dispatcher thread per call.
- GatewayProtocol.Conservation: a handler that enqueues is a client thread of its own, so the order of a handler's
  steps within its dispatcher is not kept; this only adds interleavings. The check and the write of `cancel` are two
  steps under the registry's lock, which is finer than the code.
- GatewayRuntimes.DrainFinishes: a lone dispatcher with no cancel between its turns; for any interleaving progress is
  GatewayAttempts.StepsAreBounded with GatewayAttempts.AtRestAllIsFinished.
- GatewaySubscriptions.FiresExactlyOnce: each completion and its event are one step there; interleaved completions are
  not looked at, as two sweeps at once may run a handler twice, and the second `remove` then raises.
- Direct and wildcard subscriptions of the gateway, and the `then` actions, templates and YAML set-up: loops over
  look-ups.
- AssemblyCorrectness.FlatProgramMeansBlock: jumps that go backwards or into the body of a LOOP or EACH, and loops that
  share their closing label, have no nested meaning. A program counter below zero, where Python would index from the
  end, is the outcome NegativeIp.
- AssemblyVm.RunEachBody: the rewriting of an instruction's arguments in place is modelled on values.
- AssemblyChat.EachEndsExactly: bodies of PUT and PUT+ under undotted names other than the item's. A role that shows
  the item as a whole or in another field, a chat, an attribute of the counter, or a variable that the body puts under,
  has no condition here, beyond AssemblyChat.NeverEnds; nor have a PUT under the item's name, nested EACHs and other
  operations that lengthen a list, for which there is AssemblyRuns.TameRunEnds. Variables hold chats, messages or other
  values, and no chat or message is inside another value.
- AssemblyChat.EndsSoonOrNever: with the item's content as a role, PUT+ lines, and contents that are the number of the
  turn where no role is, are outside; there AssemblyChat.ContentEchoesForEver is one that does not end.
- AssemblyText.ParseProgram: white space and letters are those of Unicode for white space and of ASCII for letters,
  digits and upper case.
- EventTexts.WrittenProgramMeans: `on` statements and generate calls are compiled, but only emits of data are followed
  into the VM. `str` of floats, lists and objects is an oracle, and the depth of Python's recursion has no limit.
- EventSpelling.PrintedProgramIsParsed: without floats, as a printer would have to choose their decimals.
- EventGrammar.ReadIsWritten: why and where a text is refused is left out; digits and letters are those of ASCII.
- EventCorrectness.CompiledProgramMeans: floats are known by their decimal text; `int` and `float` of other notations
  (underscores, exponents, `nan`) are not modelled.
- WorkflowStore.WorkflowContext.Read: access into a value that is no dictionary is an oracle that answers or finds
  nothing; an index out of range, which raises, is not modelled. The `@state` dictionary is not used by the VM.
- SieveSolver.SmartSieveEngine.Solve: rules are expressions with their text, not strings for `eval`; strings, calls and
  names other than `s.pos` and `abs` do not occur. Timing, printing and `format_solution` are left out.
- Cascade.VerifyLogic: the evaluation of a rule string is an oracle with exceptions; the branch for Einstein puzzles,
  the sample order and the reading of manifests are left out. Letters other than A to Z are not lower-cased when a rule
  is searched for the word author.
- BehaviorTrees.BehaviorNode.RefreshFromSerialized: a persisted copy is taken to hold no copy or history of its own, as
  `to_serialized_dict` makes it.
- BehaviorRuns.RunKeepsStack: a node that is already running is not entered again, and no other thread refreshes the
  tree between two elements of a run, when nothing is locked. Values inside node data are values, so lists that a node
  and its copy share are not modelled.
- BehaviorTrees.BehaviorTree.EndElement: the loop of `run_node` around its two halves is the state machine of
  BehaviorRuns, since it need not end.
- DslRuns.RunIsBounded: commands that only compute and store are oracles, without `run_node`; predicates, templates and
  `str` are oracles; values other than numbers, texts and lists are opaque and raise in arithmetic.
- AtomicRebuild.RowsToJson: `int` of an infinite float and `float` of an integer too large for it, which raise
  OverflowError, are not modelled.
- AtomicRebuild.ApplyPatch: a dictionary put into a cell by a patch is a value, so later rows below it would not change
  the row's own dictionary. The nested writes of `rows_to_json` into its fresh dictionaries are modelled on values.
- HypothesisComponent.EvaluateConnected: reasons, titles and per-node results are left out, and the neighbours of a
  node come in any order.
- `HypothesisTree.connected_component`: it follows one-way links and starts from inactive nodes, so that the
  equivalence does not apply to it.
- ConstraintMeaning.PrintedConstraintMeans: texts are token sequences; the characters of names, numbers and quoted
  strings are not looked at, and variables do not hide `abs`, `len`, `set` or `sum`. Floats and other constants are
  left out, as are products, powers, slices and `not in`, which are never printed.
- The regular expressions that clean formulas and model output, prompts, `tools/v3_core.js`, the user interface and
  table schemas.
