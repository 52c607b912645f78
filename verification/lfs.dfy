/** The local-filesystem tap (`Lfs`): a filesystem tap whose path setter refuses
    any path that contains `://`, holds no line terminator and does not start
    with `file://`, and otherwise hands the path, untouched, to the base
    filesystem tap (`Hfs`), which records it. This is a substring and prefix
    test, not a parse of the URI scheme.

    The base tap and its collaborators are not part of this model; they appear as
    opaque types, and the base path setter as "record the forwarded string". */
module LfsTap {
  import opened Wrappers
  import opened JavaString

  /** Record format descriptor (`Scheme`), field selector (`Fields`) and sink
      policy (`SinkMode`) of the base tap: carried, never inspected. */
  type Scheme(==)
  type Fields(==)
  type SinkMode(==)

  /** What a constructor was given to describe the records. */
  datatype Format = SchemeFormat(scheme: Scheme) | FieldsFormat(fields: Fields)

  /** What a constructor was given to describe the sink policy. */
  datatype Access = DefaultAccess | ReplaceFlag(replace: bool) | Mode(sinkMode: SinkMode)

  /** The state of an `Lfs` instance as the base tap holds it. */
  datatype Lfs = Lfs(format: Format, access: Access, stringPath: Option<string>)

  /** `IllegalArgumentException` with its message. */
  datatype Error = IllegalArgument(message: string)

  /** The tap's state after a call of the path setter, and what the call threw. */
  datatype Outcome = Outcome(tap: Lfs, thrown: Option<Error>)

  const SchemeSeparator: string := "://"
  const FileSchemePrefix: string := "file://"
  const FileSchemeMessage: string := "uri must use the file scheme"

  /** A path the guard refuses: it contains `://` anywhere, holds no line
      terminator (else the whole-string match fails), and does not start with
      `file://`. */
  ghost predicate GuardRefuses(path: string) {
    Contains(path, SchemeSeparator) && !HasLineTerminator(path) && !StartsWith(path, FileSchemePrefix)
  }

  /** The guard's condition: `path.matches(".*://.*") && !path.startsWith("file://")`. */
  function RejectsPath(path: string): (reject: bool)
    ensures reject <==> WholeMatchDotStarAround(path, SchemeSeparator) && !StartsWith(path, FileSchemePrefix)
    ensures reject <==> GuardRefuses(path)
  {
    WholeMatchCharacterization(path, SchemeSeparator);
    MatchesDotStarAround(path, SchemeSeparator) && !StartsWith(path, FileSchemePrefix)
  }

  /** The base tap's path setter: record the string it is given. */
  function BaseSetStringPath(tap: Lfs, path: string): Lfs {
    tap.(stringPath := Some(path))
  }

  /** `Lfs.setStringPath`: throw for a path the guard refuses, leaving the tap as
      it was; otherwise forward the path unchanged to the base setter. */
  function SetStringPath(tap: Lfs, path: string): (o: Outcome)
    ensures o.thrown.Some? <==> GuardRefuses(path)
    ensures o.thrown.Some? ==> o.thrown.value == IllegalArgument(FileSchemeMessage) && o.tap == tap
    ensures o.thrown.None? ==>
      o.tap.stringPath == Some(path) && o.tap.format == tap.format && o.tap.access == tap.access
  {
    if RejectsPath(path) then Outcome(tap, Some(IllegalArgument(FileSchemeMessage)))
    else Outcome(BaseSetStringPath(tap, path), None)
  }

  /** A construction that sets a path: the tap is fully built with exactly this
      path, or construction throws the setter's exception and no tap exists. */
  ghost predicate ConstructedWith(r: Result<Lfs, Error>, format: Format, access: Access, path: string) {
    && (r.Failure? <==> GuardRefuses(path))
    && (r.Success? ==> r.value == Lfs(format, access, Some(path)))
    && (r.Failure? ==> r.error == IllegalArgument(FileSchemeMessage))
  }

  /** The base constructors that take a path: record format and access, then call
      the (overridden) path setter; an exception aborts construction. */
  function Construct(format: Format, access: Access, path: string): (r: Result<Lfs, Error>)
    ensures ConstructedWith(r, format, access, path)
  {
    var o := SetStringPath(Lfs(format, access, None), path);
    if o.thrown.Some? then Failure(o.thrown.value) else Success(o.tap)
  }

  /** `Lfs(Scheme)`: no path is set, so the guard is never consulted. */
  function NewFromScheme(scheme: Scheme): (t: Lfs)
    ensures t.stringPath.None? && t.format.SchemeFormat? && t.format.scheme == scheme
    ensures t.access == DefaultAccess
  {
    Lfs(SchemeFormat(scheme), DefaultAccess, None)
  }

  /** `Lfs(Fields, String)`. */
  function NewFromFields(fields: Fields, stringPath: string): (r: Result<Lfs, Error>)
    ensures ConstructedWith(r, FieldsFormat(fields), DefaultAccess, stringPath)
  {
    Construct(FieldsFormat(fields), DefaultAccess, stringPath)
  }

  /** `Lfs(Scheme, String)`. */
  function NewFromSchemePath(scheme: Scheme, stringPath: string): (r: Result<Lfs, Error>)
    ensures ConstructedWith(r, SchemeFormat(scheme), DefaultAccess, stringPath)
  {
    Construct(SchemeFormat(scheme), DefaultAccess, stringPath)
  }

  /** `Lfs(Scheme, String, boolean replace)`. */
  function NewFromSchemeReplace(scheme: Scheme, stringPath: string, replace: bool): (r: Result<Lfs, Error>)
    ensures ConstructedWith(r, SchemeFormat(scheme), ReplaceFlag(replace), stringPath)
  {
    Construct(SchemeFormat(scheme), ReplaceFlag(replace), stringPath)
  }

  /** `Lfs(Fields, String, SinkMode)`. */
  function NewFromFieldsSinkMode(fields: Fields, stringPath: string, sinkMode: SinkMode): (r: Result<Lfs, Error>)
    ensures ConstructedWith(r, FieldsFormat(fields), Mode(sinkMode), stringPath)
  {
    Construct(FieldsFormat(fields), Mode(sinkMode), stringPath)
  }

  /** `Lfs(Scheme, String, SinkMode)`. */
  function NewFromSchemeSinkMode(scheme: Scheme, stringPath: string, sinkMode: SinkMode): (r: Result<Lfs, Error>)
    ensures ConstructedWith(r, SchemeFormat(scheme), Mode(sinkMode), stringPath)
  {
    Construct(SchemeFormat(scheme), Mode(sinkMode), stringPath)
  }
}
