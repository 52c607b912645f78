/** What the local-filesystem tap's path guard accepts and refuses, stated over
    all paths and proved for characteristic examples. */
module LfsProperties {
  import opened Wrappers
  import opened JavaString
  import opened LfsTap

  /** A path with no `://` anywhere is always accepted and stored as given. */
  lemma PathWithoutSeparatorAccepted(tap: Lfs, path: string)
    requires !Contains(path, SchemeSeparator)
    ensures SetStringPath(tap, path).thrown.None?
    ensures SetStringPath(tap, path).tap.stringPath == Some(path)
  {
  }

  /** In particular a path with no `:` at all, such as any plain local path,
      is accepted and stored as given. */
  lemma ColonFreePathAccepted(tap: Lfs, path: string)
    requires forall i :: 0 <= i < |path| ==> path[i] != ':'
    ensures SetStringPath(tap, path).thrown.None?
    ensures SetStringPath(tap, path).tap.stringPath == Some(path)
  {
    SeparatorNeedsColon(path);
  }

  /** Any path beginning with `file://` is accepted, whatever follows it. */
  lemma FilePrefixAccepted(tap: Lfs, rest: string)
    ensures SetStringPath(tap, FileSchemePrefix + rest).thrown.None?
    ensures SetStringPath(tap, FileSchemePrefix + rest).tap.stringPath == Some(FileSchemePrefix + rest)
  {
  }

  /** `scheme://rest` is refused for every scheme token other than `file`
      (a token holds no `:`, as section 3.1 of RFC 3986 requires), provided no
      line terminator appears; the tap keeps its previous state. */
  lemma {:induction false} OtherSchemeRejected(tap: Lfs, scheme: string, rest: string)
    requires forall i :: 0 <= i < |scheme| ==> scheme[i] != ':'
    requires scheme != "file"
    requires !HasLineTerminator(scheme + SchemeSeparator + rest)
    ensures SetStringPath(tap, scheme + SchemeSeparator + rest) ==
            Outcome(tap, Some(IllegalArgument(FileSchemeMessage)))
  {
    var path := scheme + SchemeSeparator + rest;
    assert path[|scheme|..|scheme| + 3] == SchemeSeparator;
    assert OccursAt(path, SchemeSeparator, |scheme|);
    if |scheme| < 4 {
      assert path[|scheme|] == ':' != FileSchemePrefix[|scheme|];
    } else if |scheme| > 4 {
      assert path[4] == scheme[4] != ':';
    }
  }

  /** With `://` present and no line terminator, refusal is exactly "does not
      start with `file://`"; refusal leaves the tap untouched. */
  lemma RejectedIffNotFilePrefixed(tap: Lfs, path: string)
    requires Contains(path, SchemeSeparator) && !HasLineTerminator(path)
    ensures SetStringPath(tap, path).thrown.Some? <==> !StartsWith(path, FileSchemePrefix)
    ensures SetStringPath(tap, path).thrown.Some? ==> SetStringPath(tap, path).tap == tap
  {
  }

  /** A line terminator anywhere defeats the whole-string match, so even a
      non-`file` URI is accepted and stored verbatim. */
  lemma LineTerminatorAccepted(tap: Lfs, path: string)
    requires HasLineTerminator(path)
    ensures SetStringPath(tap, path).thrown.None?
    ensures SetStringPath(tap, path).tap.stringPath == Some(path)
  {
  }

  /** The decision depends on the path alone, not on the tap's other state. */
  lemma DecisionIndependentOfTap(t1: Lfs, t2: Lfs, path: string)
    ensures SetStringPath(t1, path).thrown == SetStringPath(t2, path).thrown
  {
  }

  /** Every path-taking constructor routes its path through the same guard:
      they all succeed or all fail together, and agree on the stored path. */
  lemma ConstructorsAgree(scheme: Scheme, fields: Fields, mode: SinkMode, replace: bool, path: string)
    ensures var a := NewFromFields(fields, path);
            var b := NewFromSchemePath(scheme, path);
            var c := NewFromSchemeReplace(scheme, path, replace);
            var d := NewFromFieldsSinkMode(fields, path, mode);
            var e := NewFromSchemeSinkMode(scheme, path, mode);
            && a.Success? == b.Success? == c.Success? == d.Success? == e.Success? == !RejectsPath(path)
            && (a.Success? ==> a.value.stringPath == b.value.stringPath == c.value.stringPath
                               == d.value.stringPath == e.value.stringPath == Some(path))
  {
  }

  /** `://` need not follow a scheme token: a bare path holding it is refused. */
  lemma BarePathWithSeparatorRejected(tap: Lfs)
    ensures SetStringPath(tap, "/tmp/a://b").thrown == Some(IllegalArgument(FileSchemeMessage))
  {
    assert OccursAt("/tmp/a://b", SchemeSeparator, 6);
    forall i | 0 <= i < 10 ensures !IsLineTerminator("/tmp/a://b"[i]) {}
    assert "/tmp/a://b"[0] != FileSchemePrefix[0];
  }

  /** `file://` is compared case-sensitively and only at index 0. */
  lemma FilePrefixIsCaseSensitiveAndAnchored(tap: Lfs)
    ensures SetStringPath(tap, "FILE://x").thrown.Some?
    ensures SetStringPath(tap, " file://x").thrown.Some?
    ensures SetStringPath(tap, "xfile://y").thrown.Some?
  {
    assert OccursAt("FILE://x", SchemeSeparator, 4);
    assert OccursAt(" file://x", SchemeSeparator, 5);
    assert OccursAt("xfile://y", SchemeSeparator, 5);
    forall i | 0 <= i < 8 ensures !IsLineTerminator("FILE://x"[i]) {}
    forall i | 0 <= i < 9 ensures !IsLineTerminator(" file://x"[i]) {}
    forall i | 0 <= i < 9 ensures !IsLineTerminator("xfile://y"[i]) {}
    assert "FILE://x"[0] != FileSchemePrefix[0];
    assert " file://x"[0] != FileSchemePrefix[0];
    assert "xfile://y"[0] != FileSchemePrefix[0];
  }

  /** A plain local path is accepted and stored verbatim, trailing slash included. */
  lemma PlainPathScenario(tap: Lfs)
    ensures SetStringPath(tap, "/tmp/data/").thrown.None?
    ensures SetStringPath(tap, "/tmp/data/").tap.stringPath == Some("/tmp/data/")
  {
    forall i | 0 <= i < 10 ensures "/tmp/data/"[i] != ':' {}
    ColonFreePathAccepted(tap, "/tmp/data/");
  }

  /** `file` URIs are accepted, also one holding a further `://`. */
  lemma FileUriScenarios(tap: Lfs)
    ensures SetStringPath(tap, "file:///tmp/data").thrown.None?
    ensures SetStringPath(tap, "file://a://b").thrown.None?
  {
  }

  /** An `hdfs` URI is refused with the file-scheme message. */
  lemma HdfsUriScenario(tap: Lfs)
    ensures SetStringPath(tap, "hdfs://cluster/tmp/data").thrown == Some(IllegalArgument(FileSchemeMessage))
  {
    assert OccursAt("hdfs://cluster/tmp/data", SchemeSeparator, 4);
    forall i | 0 <= i < 12 ensures !IsLineTerminator("hdfs://cluster/tmp/data"[i]) {}
    forall i | 12 <= i < 23 ensures !IsLineTerminator("hdfs://cluster/tmp/data"[i]) {}
    assert "hdfs://cluster/tmp/data"[0] != FileSchemePrefix[0];
  }

  /** The same `hdfs` URI followed by a newline slips through the guard. */
  lemma TrailingNewlineScenario(tap: Lfs)
    ensures SetStringPath(tap, "hdfs://cluster/x\n").thrown.None?
  {
    assert IsLineTerminator("hdfs://cluster/x\n"[16]);
  }

  /** Every occurrence of `://` puts a `:` in the string, so a path with no `:`
      never triggers the guard. */
  lemma {:induction false} SeparatorNeedsColon(s: string)
    ensures Contains(s, SchemeSeparator) ==> exists i :: 0 <= i < |s| && s[i] == ':'
  {
    if Contains(s, SchemeSeparator) {
      var i :| OccursAt(s, SchemeSeparator, i);
      assert s[i] == s[i..i + 3][0];
    }
  }
}
