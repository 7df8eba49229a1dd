# Verified model of the LLVM snippets

Five pieces of the repository are modelled here and proved correct in Dafny 4.11:

- **Counting executed blocks** (`lib/snippets/CountExecBB.cc`): the pass that puts a counter increment in
  front of every terminator, registers an exit handler at the start of `main`, and prints the counter at exit.
- **Path dump** (`lib/snippets/DumpCFGPath.cc`): reachability between basic blocks by a recursive search
  whose visited set is passed by value.
- **POSIX main** (`lib/snippets/POSIXMain.cc`): replacing a parameterless `main` by one with `argc` and `argv`.
- **Value and type questions** (`lib/mybase/LLUtils.cc`): pointer predicates, constant expressions,
  integer-related types, assertion call sites.
- **Subtractive gcd** (`res/def_use/gcd.c`).

## How it is built

`IR.dfy` is a small intermediate representation (functions, ordered blocks, phi, alloca, load, store, binary
operations, direct and indirect calls, br, conditional br, switch, ret, unreachable; 64-bit words that wrap).
`Machine.dfy` gives it a deterministic step semantics with a call stack, memory, the list of exit handlers, the
events sent to external functions, and a log of the blocks entered. `exit`, `atexit` and the return from `main`
follow sections 5.1.2.2.3, 7.22.4.2 and 7.22.4.4 of C11: handlers run in reverse order of registration on top of
the frames that called `exit`, handlers may register handlers, and a second `exit` is undefined. Undefined
behaviour is a state of its own, so the results also say that no undefined behaviour is added or removed.
What external functions answer is a parameter (`Env`): `printf` only writes, any other external function may
answer anything that depends on its arguments and on how many such calls came before.

Both passes exist twice. `CountBB.dfy` and `Posix.dfy` state them as functions on module values, with every error
path of the code. `Program.dfy`, `CountBBPass.dfy` and `PosixPass.dfy` are the code's own form: objects for
modules, functions and blocks, instruction lists changed in place, blocks moved from one function to another
and following their parent. Each method is proved to produce exactly the value its function gives.

The proof about counting goes through one relation (`Simulation.Match`) that holds whenever both machines stand
between two instructions of the original program. There, the counter is the number of blocks entered minus the
number of live frames, because every live frame is still inside its block. `Counting.dfy` and `Exit.dfy` follow the
inserted instructions and the handler one step at a time; `Theorems.dfy`, `ExitReport.dfy` and `Pipeline.dfy` draw
the conclusions about whole runs.

The theorems about runs assume what the pass needs (`Simulation.Fresh`): the names `bbCounter` and `setupAtExit` are
unused, `atexit` and `printf` have no body in the module, and `main` is defined. What happens when one of the two
names is taken is proved separately (`SpareCounter.dfy`, `DeadReport.dfy`, `ReportRight.dfy`, `DeclaredHandler.dfy`,
with examples in `Clash.dfy`). `IR.ModuleOk` is the structural part of well-formedness: one terminator per block and at
its end, phis in front, no branch to an entry block, all names declared. Definition before use is not part of it: the
machine gives undefined behaviour to a read of an undefined register, so the results about runs do not need it;
`Dominance.SSA` states it, and the pass keeps it. Single-threaded execution is assumed throughout.

## What the proofs brought out

- The increments look the counter up by name, the report keeps the variable that was created
  (`Pass.SharedCounter`). When the name was taken these are two variables, nobody else knows the created one, and every
  report of every run says 0 (`SpareCounter.RenamedReports`); so the last report is right if and only if the name was
  free or the run completed no block (`ReportRight.RightExactly`). `Clash.UnluckyReport` is a program whose one block is
  reported as 0 and whose own variable is changed.
- The reporting block is appended to the handler. When a function `setupAtExit` with a body exists, nothing branches
  there and no run enters it: a finished run has entered the reporting block if and only if the program did not define
  the handler (`ReportRight.EnteredExactly`). `Clash.GuardedSilence` is such a program; it ends without a report.
- A program that only declares `setupAtExit` gets the report as its body. If nothing refers to the declaration,
  everything holds as if the name were free (`DeclaredHandler.DeclaredAlike`); once the original calls it, no state of
  the instrumented program shows the same events (`DeclaredHandler.CalledApart`, with `Clash.CallerApart` as an example).
- `elimConstExpr` keeps the address up to the stripped offsets exactly when no cast on the way drops bits
  (`Values.AddressExactly`).
- `isPointerManipulation` judges `insertvalue` by `isPointerValue`, which discounts one level for the address of a
  variable, but `store` by the plain type; `Values.ManipulationExact` states both as they are.
- The loop of `gcd` ends exactly when an argument is zero, both are positive, or both are equal
  (`Gcd.HaltsExactly`); equal negative arguments are the case one overlooks. On all other arguments a variable grows
  beyond every bound, so on C's `int` these are exactly the arguments without overflow (`Gcd.DefinedExactly`).

## Model

| member | source | states |
|---|---|---|
| `CountBBPass.RunOnBasicBlock` | lib/snippets/CountExecBB.cc:87-107 | load, add and store stand directly before the terminator, nothing else of the block changes, and the call fails exactly when no visible global has the counter's name |
| `CountBBPass.InsertedLiterally` | lib/snippets/CountExecBB.cc:89-104 | an instrumented block instruction by instruction: br, conditional br, switch, ret and unreachable end a block, and load of `bbCounter`, add 1, store stand directly before it; any other block stays |
| `CountBBPass.RunOnFunction` | lib/snippets/CountExecBB.cc:115-117 | every block of the function gets its own increment with new registers; the blocks still belong to the function |
| `CountBBPass.RunOnFunctions` | lib/snippets/CountExecBB.cc:112-118 | every function but the handler is instrumented, in place and in order |
| `CountBBPass.GetOrInsertFunction` | lib/snippets/CountExecBB.cc:71-77 | an existing function of that type (parameters, result, varargs) is reused, a missing one appended as a declaration, any other owner of the name is an error |
| `CountBBPass.InsertCall` | lib/snippets/CountExecBB.cc:79-80 | the registration becomes the very first instruction of main |
| `CountBBPass.CreateAtexitCall` | lib/snippets/CountExecBB.cc:24-35 | the handler gets one new block that loads the counter, calls printf with the text and the value, and returns |
| `CountBBPass.Setup` | lib/snippets/CountExecBB.cc:56-85 | the module object ends up as the functional setup says, on every error path with that error, and owns only old or new objects |
| `CountBBPass.RunOnModule` | lib/snippets/CountExecBB.cc:109-120 | the whole pass in place equals the functional pass, for success and for every error |
| `Pass.AcceptedExactly` | lib/snippets/CountExecBB.cc:58-91 | for every module: the pass succeeds if and only if there is a main with a first instruction, `setupAtExit`, `atexit` and `printf` are free or of type void(), int(void (*)()) and int(char *, ...), and `bbCounter` is free or a visible variable; otherwise it fails for the first of these reasons, in the order of the code |
| `Pass.InsertedCallsFit` | lib/snippets/CountExecBB.cc:28-80 | in every result the three functions have these types, and the inserted calls fit them: one argument for atexit, two for printf |
| `Pass.SharedCounter` | lib/snippets/CountExecBB.cc:67-97 | every block outside the handler increments the variable found by name, the report prints the one created, and these are one variable if and only if the name was free |
| `Pass.TakenHandler` | lib/snippets/CountExecBB.cc:24-34 | the reporting block follows the blocks the handler had, no branch leads to it, and it is the entry block if and only if the handler had no body |
| `DeadReport.NeverReported` | lib/snippets/CountExecBB.cc:24-34 | when the program defines the handler, no state of any run has entered the reporting block |
| `ReportRight.EnteredExactly` | lib/snippets/CountExecBB.cc:24-82 | a finished run has entered the reporting block if and only if the program did not define the handler |
| `SpareCounter.RenamedReports` | lib/snippets/CountExecBB.cc:67-90 | when the counter's name was taken, every report of every run is 0 |
| `ReportRight.RightExactly` | lib/snippets/CountExecBB.cc:67-97 | the last report of a finished run gives its completed blocks if and only if the counter's name was free or that number is 0 modulo 2^64 |
| `DeclaredHandler.DeclaredAlike` | lib/snippets/CountExecBB.cc:70-71 | a handler that is declared and not referred to changes no run, neither of the program nor of its instrumented form, against the module without it |
| `DeclaredHandler.CalledApart` | lib/snippets/CountExecBB.cc:70-71 | once the original has called a declared handler, no state of the instrumented program shows the same events |
| `Clash.UnluckyReport` | lib/snippets/CountExecBB.cc:67-97 | a program with its own bbCounter completes one block, is reported as 0, and finds its variable changed from 7 to 8 |
| `Clash.GuardedSilence` | lib/snippets/CountExecBB.cc:24-34 | a program with its own setupAtExit completes and counts one block, ends as before, and reports nothing |
| `Clash.CallerApart` | lib/snippets/CountExecBB.cc:70-71 | a program that calls an external setupAtExit shows that call, its instrumented form at no step |
| `Pass.FreshInstrumented` | lib/snippets/CountExecBB.cc:56-120 | with the names free, every original name still finds its function, instrumented; the handler, atexit and printf are there; the counter starts at 0 |
| `Pass.FreshFuncs` | lib/snippets/CountExecBB.cc:109-120 | the result's function list: all originals in their order, then the handler, then the added declarations |
| `Recover.ResultOk` | lib/snippets/CountExecBB.cc:67-118 | the result is structurally well-formed: one terminator per block and at its end, phis in front, registers and names declared |
| `Dominance.NewUses` | lib/snippets/CountExecBB.cc:97-104 | an inserted instruction uses only the register that the instruction directly before it defines, and no other instruction uses a new register |
| `Dominance.ResultSSA` | lib/snippets/CountExecBB.cc:67-118 | if in every function each register has one definition and every walk from the entry to a use (for a phi: to the end of the predecessor) passes it, the same holds in every function of the result |
| `Recover.InstrSingleAssignment` | lib/snippets/CountExecBB.cc:97-104 | the inserted registers are all different from each other and from the old ones |
| `Recover.Recovered` | lib/snippets/CountExecBB.cc:67-118 | deleting counter, handler, registration and increments gives the original module back, up to unused declarations |
| `Simulation.BlockShape` | lib/snippets/CountExecBB.cc:79-104 | position by position, what an instrumented block holds |
| `Invariant.RunGood` | lib/snippets/CountExecBB.cc:67-68 | over every run, no register, argument, memory cell or handler ever holds a name the module does not have, so the original program cannot reach a fresh counter |
| `Counting.SharedStep` | lib/snippets/CountExecBB.cc:94-104 | at the same original instruction both machines do the same to all original registers, memory, events, handlers and control flow, or both meet undefined behaviour |
| `Conservation.PreludeRun` | lib/snippets/CountExecBB.cc:79-104 | the registration takes one step and the increment three; during all of them nothing visible changes and the count adds up |
| `Exit.ReportRun` | lib/snippets/CountExecBB.cc:24-35 | the handler, called at exit, takes four steps, prints the variable's value and leaves everything else as it was |
| `Exit.ReportAll` | lib/snippets/CountExecBB.cc:24-35 | all due registrations of the handler report the same number one after the other; the handler does not change the count |
| `Theorems.StepSim` | lib/snippets/CountExecBB.cc:79-120 | one original step corresponds to a computed number of instrumented steps that lead to the matching state |
| `Theorems.RunSim` | lib/snippets/CountExecBB.cc:79-120 | forward simulation for runs of every length: registers, memory but the counter, arguments, return values, branches, handlers and events agree at every original instruction boundary |
| `Theorems.Backward` | lib/snippets/CountExecBB.cc:79-120 | whatever the instrumented program shows at any step, the original shows at some step |
| `Theorems.SameOutcome` | lib/snippets/CountExecBB.cc:79-120 | one program finishes with a given exit code, or meets undefined behaviour, if and only if the other does |
| `Theorems.ConservationLaw` | lib/snippets/CountExecBB.cc:94-116 | at every state of every instrumented run: blocks entered outside the handler equal the counter plus the frames whose block has not stored yet, modulo 2^64 and exactly below it |
| `ExitReport.RunBook` | lib/snippets/CountExecBB.cc:79-82 | over every run, registrations are still on the list or already reported, and the first entry of the list is the handler |
| `ExitReport.Overhead` | lib/snippets/CountExecBB.cc:97-104 | instrumented steps are original steps plus three per completed block, one per registration and four per report |
| `ExitReport.ReportAtExit` | lib/snippets/CountExecBB.cc:24-35 | at the end there is one report per entry of main, the last thing printed is the number of all blocks completed, exit handlers included, and the reported numbers never go down short of 2^64 |
| `Pipeline.PassStarts` | lib/snippets/CountExecBB.cc:109-120 | the results about runs apply to the output of the pass on every well-formed module with free names |
| `Pipeline.BothPasses` | lib/snippets/POSIXMain.cc:39-50 | rewriting main and then counting: same exit code and visible events as the original for every argc and argv, and the last report is the original's number of completed blocks |
| `CfgPath.HasPath` | lib/snippets/DumpCFGPath.cc:25-40 | true if and only if some path from the first to the second block has, after the first, no visited block; at every call the visited set is the initial one plus exactly the blocks of the simple path walked so far, and path and recursion together are never longer than the number of blocks |
| `CfgPath.ReachStep` | lib/snippets/DumpCFGPath.cc:31-38 | a path can be cut at its last visit to the current block, so marking that block visited loses no target |
| `CfgPath.TraversePath` | lib/snippets/DumpCFGPath.cc:42-55 | on any graph: one row per block in order, holding exactly the other blocks it reaches, in order |
| `CfgRuns.TraverseFunction` | lib/snippets/DumpCFGPath.cc:42-55 | on a function: the row of a block holds exactly the other blocks that control can come to from there, each terminator for some value of its operand |
| `CfgRuns.EdgesExactly` | lib/snippets/DumpCFGPath.cc:31-32 | a block's successor list holds whatever its terminator goes to in any frame, and only what it goes to for some value; a switch with equal case values lists shadowed targets too |
| `CfgRuns.RunFollowed` | lib/snippets/DumpCFGPath.cc:25-40 | over every run, the blocks a frame enters form a walk from the entry, and every block in the log is reachable from the entry of its function |
| `CfgPath.RowsCompose` | lib/snippets/DumpCFGPath.cc:45-51 | the dumped relation is closed under composition off the diagonal |
| `CfgPath.CfgKept` | lib/snippets/CountExecBB.cc:94-104 | counting blocks leaves the terminator of every block of every original function, and with it the successors, unchanged |
| `CfgCost.PathsExact` | lib/snippets/DumpCFGPath.cc:31-37 | the listing that the cost is measured against holds every simple path once and nothing else |
| `CfgCost.CallsBound` | lib/snippets/DumpCFGPath.cc:31-37 | a query makes at most as many calls as there are simple paths from its start, a failing one exactly as many |
| `CfgCost.QueryCost` | lib/snippets/DumpCFGPath.cc:25-40 | in a graph of n blocks with distinct successors no query makes more than the sum of (n-1)!/(n-1-j)! calls |
| `Posix.PosixizeExactly` | lib/snippets/POSIXMain.cc:23-50 | on well-formed modules: the rewrite succeeds if and only if there is no main, main takes an integer and a pointer to pointers to bytes, or it takes nothing and the module makes sense without it; only in the last case anything changes |
| `Unused.UsedExactly` | lib/snippets/POSIXMain.cc:49 | a function is referred to if and only if the rest of the module is not well-formed without it |
| `Posix.RewrittenOk` | lib/snippets/POSIXMain.cc:39-50 | the result is well-formed with one main of type int(int, char **) that has the old blocks in order, all other functions are as before, and a second run changes nothing |
| `Posix.PosixRun` | lib/snippets/POSIXMain.cc:41-48 | for every argc and argv both programs have at every step the same events, memory, block log, registers and outcome |
| `PosixPass.Splice` | lib/snippets/POSIXMain.cc:46-47 | all blocks move in order, the old list is empty, every block's parent is the new function |
| `PosixPass.PrepareFunc.PosixizeMain` | lib/snippets/POSIXMain.cc:23-51 | the method on module objects gives the functional rewrite, its return value and its errors; every block has one parent |
| `Commute.PassesCommute` | lib/snippets/POSIXMain.cc:39-50 | both orders of the two passes succeed, give the same functions up to order, and run alike at every step |
| `Types.IsIntegerRelatedType` | lib/mybase/LLUtils.cc:235-250 | terminates on every type that nests by value to some depth, and says whether every scalar leaf is an integer or a pointer to one: a struct counts by its elements, one without elements passes, an array counts by its element type whatever its length |
| `Types.GroundedBounded` | lib/mybase/LLUtils.cc:238-246 | when no struct holds itself by value, every type nests to some depth, so the walk terminates |
| `Values.DepthDecides` | lib/mybase/LLUtils.cc:44-66 | the pointer predicates are thresholds of one effective depth, and no cast in them fails |
| `Values.ManipulationExact` | lib/mybase/LLUtils.cc:69-108 | on well-typed instructions the fatal branch is reached exactly by an unlisted kind that gives a pointer; otherwise the answer is whether a pointer is moved or made, and for a call whether it is a direct call of a declared malloc or free, or of memcpy, memmove or memset |
| `Values.CallExact` | lib/mybase/LLUtils.cc:86-89 | the same for calls of every type: a defined malloc, a call through a pointer and inline assembly give false |
| `Values.ElimExactly` | lib/mybase/LLUtils.cc:219-228 | the result is the one expression on the chain of first operands, narrowing casts included, that is no address computation and no cast; there is none exactly when the assertion fails |
| `Values.ElimIdempotent` | lib/mybase/LLUtils.cc:219-228 | the result is its own result, and the assertion fails exactly when the chain ends in another kind of constant expression |
| `Values.AddressExactly` | lib/mybase/LLUtils.cc:219-228 | for all values of the root, which lies on the chain, the address is the result's address plus the stripped offsets, if and only if no cast on the way drops bits |
| `AssertSites.GetAssertCallSite` | lib/mybase/LLUtils.cc:254-267 | the nested loops collect the sites of all blocks |
| `AssertSites.SitesMember` | lib/mybase/LLUtils.cc:256-263 | exactly the direct calls to `__assert_fail` are listed |
| `AssertSites.SitesInOrder` | lib/mybase/LLUtils.cc:257-261 | of two sites the one that comes first in the code, in an earlier block or earlier in the same block, comes first in the list |
| `AssertSites.SitesDistinct` | lib/mybase/LLUtils.cc:255-266 | no call is listed twice |
| `AssertSites.SitesKept` | lib/snippets/CountExecBB.cc:97-104 | counting blocks changes nothing in the list of any original function |
| `Gcd.Gcd` | res/def_use/gcd.c:1-12 | the result divides both arguments, is divisible by every common divisor and is a combination of them, after at most abs(a) + abs(b) rounds; gcd(0, b) is b |
| `Gcd.InRange` | res/def_use/gcd.c:5-10 | on all arguments on which the loop ends, each variable stays between zero and its argument |
| `Gcd.HaltsExactly` | res/def_use/gcd.c:4-11 | on unbounded integers the loop ends if and only if an argument is zero, both are positive, or they are equal |
| `Gcd.DefinedExactly` | res/def_use/gcd.c:1-12 | on the values of C's int, every round stays in range if and only if the loop ends; 1 and -1 leave it |

## Left out

- LLVM itself (pass registration, attributes, linkage beyond visibility by name, value names, debug output) is replaced by the small representation.
- CountBBPass.CreateAtexitCall: the format string is a value of its own (`StrV`); the internal variable that holds it is not an entry of the module.
- Threads: the inserted load, add and store are not atomic and nothing is claimed about concurrent runs.
- Exceptions, invoke, longjmp, musttail calls and catchswitch terminators.
- Memory is a set of named cells; address arithmetic inside objects appears only in the constant expressions of `Values.dfy`, and a stack cell stays readable after its function returned.
- External functions do not write the program's memory and do not call back, `atexit` always succeeds, and `exit` does not flush anything.
- Integers narrower than 64 bits in `IR.dfy`, floating point and vectors.
- Values.AddressExactly: floating-point casts, which `elimConstExpr` also strips, are not among the casts, because an address does not survive them.
- What `front()` does on an empty `main` or an empty first block: the model stops there with an error of its own.
- `getTypeSize`, `geti8StrVal`, `isGlobalPointerInit` and the one-line queries of `LLUtils.cc`: layout and constant-building code, or facts that need no proof.
- `isPointerManipulation` on the kinds its arms do not name is one constructor, `OtherI`.
- LLDump.cc, DumpConsts.cc, CountLI.cc, the templates and the tools: tables that print, or thin wrappers over library analyses.
- The other C samples under `res`.
