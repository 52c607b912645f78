# Lfs path-scheme guard — a Dafny model

Cascading's `Lfs` is a `Tap` (a bound data source or sink) that specialises the
Hadoop filesystem tap `Hfs` to the local filesystem. Its one piece of logic is the
path setter `setStringPath`. The setter throws `IllegalArgumentException("uri must
use the file scheme")` when the path matches `.*://.*` and does not start with
`file://`. Otherwise it forwards the path, unchanged, to `Hfs.setStringPath`. Every
path-taking constructor reaches that setter through the `Hfs` constructor.

The model has four modules:

- `Wrappers` (wrappers.dfy): `Option` and `Result`.
- `JavaString` (java_string.dfy): the Java string operations the guard calls.
  - `StartsWith`, as Java's `startsWith` defines it.
  - `IndexOf`: a first-occurrence substring search, used to decide the match.
    It agrees with Java's `indexOf` for `0 <= from <= length`.
  - `String.matches` for the pattern shape `.*LIT.*`. It has a reference
    definition (the whole string splits as `x + LIT + y`, and `.` matches every
    character of `x` and `y`). It also has a decision procedure (`LIT` occurs and
    no character is one of Java's five line terminators). A lemma proves the two
    agree.
- `LfsTap` (lfs.dfy): the tap's state as the base tap holds it (format, access
  mode, stored path), the guard, the setter and the six constructors.
  - The setter returns an `Outcome`: the tap's state after the call plus the
    exception thrown, if any. So "the base setter is not invoked when the guard
    throws" is stated as "the state is returned unchanged".
  - A path-taking constructor returns `Result`: either a fully built tap or the exception.
- `LfsProperties` (lfs_properties.dfy): lemmas about what the guard accepts and
  refuses, over all paths and on characteristic examples.

Behaviour of the code that a reader might not expect, all modelled as written:

- `://` anywhere in the path triggers the check. It need not follow a scheme
  token, so `/tmp/a://b` is refused.
- `file://` is compared case-sensitively, and only at index 0.
- A line terminator anywhere in the path defeats the whole-string match. So
  `hdfs://cluster/x` followed by a newline is accepted.

One might expect the guard to refuse exactly the paths whose explicit scheme
differs from `file`. The code is a substring and prefix test instead. The model
follows the code. `LfsProperties.OtherSchemeRejected` proves that reading where
the two agree: a scheme token without `:` and no line terminator.

## Model

| member | source | states |
|---|---|---|
| JavaString.IndexOf | src/core/cascading/tap/Lfs.java:115 | the first occurrence of the literal at or after `from`, or -1 exactly when it occurs nowhere from there on |
| JavaString.MatchesDotStarAround | src/core/cascading/tap/Lfs.java:115 | the executable `matches(".*LIT.*")` agrees with whole-string regex matching, where `.` excludes line terminators |
| JavaString.WholeMatchCharacterization | src/core/cascading/tap/Lfs.java:115 | whole-string `.*LIT.*` matching holds if and only if LIT occurs and the string holds no line terminator |
| LfsTap.RejectsPath | src/core/cascading/tap/Lfs.java:115 | the guard refuses exactly the paths that match `.*://.*` and do not start with `file://`; equivalently those that contain `://`, hold no line terminator and lack the `file://` prefix |
| LfsTap.SetStringPath | src/core/cascading/tap/Lfs.java:113-119 | throws IllegalArgument with the file-scheme message exactly for the paths the guard refuses and then leaves the tap as it was; otherwise stores exactly the given path and nothing else changes |
| LfsTap.Construct | src/core/cascading/tap/Lfs.java:57-111 | a path-taking construction yields a tap holding the given format, access mode and exact path, or fails with the setter's exception, exactly when the guard refuses the path |
| LfsTap.NewFromScheme | src/core/cascading/tap/Lfs.java:44-48 | the scheme-only constructor stores the scheme and the default access mode and no path, so the guard is never consulted |
| LfsTap.NewFromFields | src/core/cascading/tap/Lfs.java:56-60 | succeeds exactly when the guard accepts, storing the fields and the exact path |
| LfsTap.NewFromSchemePath | src/core/cascading/tap/Lfs.java:68-72 | succeeds exactly when the guard accepts, storing the scheme and the exact path |
| LfsTap.NewFromSchemeReplace | src/core/cascading/tap/Lfs.java:81-85 | succeeds exactly when the guard accepts, storing the scheme, the replace flag and the exact path |
| LfsTap.NewFromFieldsSinkMode | src/core/cascading/tap/Lfs.java:94-98 | succeeds exactly when the guard accepts, storing the fields, the sink mode and the exact path |
| LfsTap.NewFromSchemeSinkMode | src/core/cascading/tap/Lfs.java:107-111 | succeeds exactly when the guard accepts, storing the scheme, the sink mode and the exact path |
| LfsProperties.PathWithoutSeparatorAccepted | src/core/cascading/tap/Lfs.java:115-118 | a path with no `://` is always accepted and stored verbatim |
| LfsProperties.ColonFreePathAccepted | src/core/cascading/tap/Lfs.java:115-118 | a path with no `:` at all is always accepted and stored verbatim |
| LfsProperties.FilePrefixAccepted | src/core/cascading/tap/Lfs.java:115-118 | every `file://` + anything is accepted, even with further `://` occurrences, and stored verbatim |
| LfsProperties.OtherSchemeRejected | src/core/cascading/tap/Lfs.java:115-116 | `scheme://rest` with a colon-free scheme other than `file` and no line terminator throws, and the tap is unchanged |
| LfsProperties.RejectedIffNotFilePrefixed | src/core/cascading/tap/Lfs.java:115-116 | for a path containing `://` with no line terminator, refusal holds exactly when it lacks the `file://` prefix, and refusal leaves the tap untouched |
| LfsProperties.LineTerminatorAccepted | src/core/cascading/tap/Lfs.java:115 | a path holding any line terminator is accepted whatever scheme it names |
| LfsProperties.DecisionIndependentOfTap | src/core/cascading/tap/Lfs.java:113-116 | whether the setter throws depends on the path alone |
| LfsProperties.ConstructorsAgree | src/core/cascading/tap/Lfs.java:57-111 | all five path-taking constructors succeed or fail together on the same path and then store the same path |
| LfsProperties.BarePathWithSeparatorRejected | src/core/cascading/tap/Lfs.java:115-116 | `/tmp/a://b` is refused although `://` follows no scheme token |
| LfsProperties.FilePrefixIsCaseSensitiveAndAnchored | src/core/cascading/tap/Lfs.java:115-116 | `FILE://x`, ` file://x` and `xfile://y` are all refused |
| LfsProperties.PlainPathScenario | src/core/cascading/tap/Lfs.java:118 | `/tmp/data/` is accepted and stored with its trailing slash |
| LfsProperties.FileUriScenarios | src/core/cascading/tap/Lfs.java:115 | `file:///tmp/data` and `file://a://b` are accepted |
| LfsProperties.HdfsUriScenario | src/core/cascading/tap/Lfs.java:115-116 | `hdfs://cluster/tmp/data` is refused with the message "uri must use the file scheme" |
| LfsProperties.TrailingNewlineScenario | src/core/cascading/tap/Lfs.java:115 | `hdfs://cluster/x` followed by a newline is accepted |
| LfsProperties.SeparatorNeedsColon | src/core/cascading/tap/Lfs.java:115 | a string containing `://` contains a `:` |

## Left out

- `getFileSystem` (Lfs.java:121-124) is left out. It only returns what Hadoop's `FileSystem.getLocal(conf)` returns, which is a foreign call with I/O and an `IOException` path.
- `Hfs`, `Tap`, `Scheme`, `Fields`, `SinkMode`, `Flow` and `JobConf` are not part of this model. `Scheme`, `Fields` and `SinkMode` are opaque types. The base path setter only records the string it is given.
- The constructors only record what they were given. The mapping of `replace` to a sink mode and the defaults inside `Hfs` are not modelled, because `Hfs` is not shown.
- `null` paths are not modelled. Java would throw `NullPointerException` at Lfs.java:115, and here paths are non-null sequences.
- Only the one regex shape the guard uses is modelled, not `java.util.regex` in general.
- Characters are Unicode scalar values, while Java strings are UTF-16 code units. The difference does not affect the guard: no line terminator, `:` or `/` is a surrogate.
- Local-mode execution of flows that use this tap, mentioned in the class comment at Lfs.java:36-38, belongs to the execution engine and is not modelled.
