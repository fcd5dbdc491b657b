# ExecutionResult: the record of one command execution

Roddy's execution layer runs commands, either through the local shell or over
ssh, and reports each run as an `ExecutionResult`. This record is immutable and
holds four values that the caller supplies:

- whether the caller judged the run successful;
- the exit code (a Java `int`);
- the captured output lines;
- a process identifier, which may be null.

It also holds a fifth field, `firstLine`. The constructor computes it once: it is
the first output line, or null when there is no output.

The model is in two modules:

- `Wrappers` (`Wrappers.dfy`) gives `Option`, which stands for Java's null, and
  `Result`, which stands for "returned a value or threw".
- `ExecutionIo` (`ExecutionResult.dfy`) models the class. The record is a datatype.
  `firstLine` is a stored field, just as the source caches it. The ghost predicate
  `Valid` is the invariant that this cache equals the head of `resultLines`, or is
  absent when there are no lines.
  - `New` is the constructor for a non-null list.
  - `Construct` is the same constructor over a nullable list. It fails, as the
    Java code does with a `NullPointerException`, exactly when the list is null.
  - The accessors are functions on the datatype. `GetProcessID`, `GetExitCode`,
    `GetResultLines` and `IsSuccessful` are plain field reads. `New`'s contract
    states what each of them returns after construction.

Because the record is a value, every call to an accessor returns the same
value. This mirrors the source's `final` fields.

## Model

| member | source | states |
|---|---|---|
| `ExecutionIo.New` | src/main/groovy/de/dkfz/roddy/execution/io/ExecutionResult.java:48-58 | The constructed result keeps the cache invariant. It reports the success flag, the exit code, the lines and the process id exactly as given, with no reconciliation between flag and exit code, and a null process id stays null. Its first line is `resultLines[0]` when there are lines and absent otherwise. |
| `ExecutionIo.Construct` | src/main/groovy/de/dkfz/roddy/execution/io/ExecutionResult.java:48-54 | Construction fails exactly when the list is null, and then with a `NullPointerException`. For a non-null list it always succeeds, with the result of `New`. |
| `ExecutionIo.ExecutionResult.GetFirstLine` | src/main/groovy/de/dkfz/roddy/execution/io/ExecutionResult.java:68-70 | On a result that keeps the cache invariant, the first line is present if and only if there are result lines, and when present it is the first of them. |
| `ExecutionIo.ExecutionResult.GetSuccessful` | src/main/groovy/de/dkfz/roddy/execution/io/ExecutionResult.java:80-82 | Returns the stored success flag, the same value as `IsSuccessful`. |
| `ExecutionIo.ExecutionResult.GetErrorNumber` | src/main/groovy/de/dkfz/roddy/execution/io/ExecutionResult.java:84-85 | The deprecated alias always returns the same value as `GetExitCode`. |
| `ExecutionIo.HeadOrAbsent` | src/main/groovy/de/dkfz/roddy/execution/io/ExecutionResult.java:54-57 | The head-or-absent rule that `Valid` and `New` rely on: present if and only if there are lines, and then the first of them. |
| `ExecutionIo.ExecutionResult.GetProcessID` | src/main/groovy/de/dkfz/roddy/execution/io/ExecutionResult.java:60-62 | Plain field read; its value after construction (the process id as given, null staying null) is stated by `New`'s ensures. |
| `ExecutionIo.ExecutionResult.GetExitCode` | src/main/groovy/de/dkfz/roddy/execution/io/ExecutionResult.java:64-66 | Plain field read; its value after construction (the exit code as given) is stated by `New`'s ensures. |
| `ExecutionIo.ExecutionResult.GetResultLines` | src/main/groovy/de/dkfz/roddy/execution/io/ExecutionResult.java:72-74 | Plain field read; its value after construction (the lines as given) is stated by `New`'s ensures. |
| `ExecutionIo.ExecutionResult.IsSuccessful` | src/main/groovy/de/dkfz/roddy/execution/io/ExecutionResult.java:76-78 | Plain field read; its value after construction (the success flag as given, whatever the exit code) is stated by `New`'s ensures. |
| `ExecutionIo.ValidIsReachable` | src/main/groovy/de/dkfz/roddy/execution/io/ExecutionResult.java:33-58 | A record keeps the first-line cache invariant if and only if some call of the constructor builds it. So the invariant describes exactly the results that can exist. |
| `ExecutionIo.NoReconciliation` | src/main/groovy/de/dkfz/roddy/execution/io/ExecutionResult.java:41-53 | Every combination of success flag and exit code can be constructed, together with any output and process id, and is reported exactly as given. Neither signal constrains the other. A corollary of `New`'s ensures: the proof only names `New` applied to the arguments as the witness. |
| `ExecutionIo.SuccessfulDespiteExitCodeOne` | src/main/groovy/de/dkfz/roddy/execution/io/ExecutionResult.java:43-52 | A result built with `successful = true` and exit code 1 reports `true` and 1. |
| `ExecutionIo.FailedWithoutOutput` | src/main/groovy/de/dkfz/roddy/execution/io/ExecutionResult.java:50-57 | A result built as unsuccessful, with exit code 0, no lines and a null process id has no first line and no process id. |
| `ExecutionIo.HelloWorld` | src/main/groovy/de/dkfz/roddy/execution/io/ExecutionResult.java:50-55 | With lines `["hello", "world"]` and process id `"1234"`, the first line is `"hello"`, and the lines and the id come back unchanged. |

## Left out

- The `InfoObject` base class. It is not part of this model, and nothing in `ExecutionResult` depends on how it behaves.
- Aliasing of the Java `List`. The source stores the caller's list reference without copying it, so a caller who mutates that list afterwards also changes `getResultLines()`, and the cached first line can then drift from it. The model holds the lines as an immutable `seq<string>`.
- Null entries inside the list. A Java list may contain `null`, and then a non-empty list whose first entry is null gives a null first line. The model's lines are non-null strings.
- The command launchers and the local and ssh transports that decide `successful` and `exitCode`. These are external callers; the model takes what they would pass as plain arguments.
- Concurrency and safe publication. The class holds no synchronisation and does nothing concurrently.
- Repeated accessor calls returning the same value (the `final` fields). In the model this follows from the record being an immutable value, so there is no separate lemma: it would only state `x == x`.
