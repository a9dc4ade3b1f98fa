/** The blocklist loader: a newline-delimited file becomes the set of denied
    names. Opening and scanning the file are abstract: the model receives
    the outcome of the open, the lines the scanner yields (without their line
    terminators) and whether the scanner stopped on an error. */
module Blocklist {
  import opened Wrappers
  import opened Strings

  /** What opening and scanning the file at the configured path gives. */
  datatype Source =
    | OpenFailure(cause: string)
    | Opened(lines: seq<string>, scanFailure: Option<string>)

  datatype LoadError =
    | OpenError(path: string, cause: string)
    | ReadError(path: string, cause: string)

  /** A trimmed line names a domain unless it is blank or a `#` comment. */
  predicate IsEntry(trimmed: string) {
    trimmed != "" && !HasPrefix(trimmed, "#")
  }

  /** The set the scan loop has built after reading `lines`. */
  function Entries(lines: seq<string>): set<string>
  {
    if lines == [] then {}
    else
      var line := TrimSpace(lines[|lines| - 1]);
      Entries(lines[..|lines| - 1]) + if IsEntry(line) then {line} else {}
  }

  /** Reference definition: the trimmed form of every qualifying line. */
  function QualifyingLines(lines: seq<string>): set<string> {
    set line | line in lines && IsEntry(TrimSpace(line)) :: TrimSpace(line)
  }

  /** `LoadBlocklist`: the scan loop inserts each qualifying trimmed line;
      an open failure or a scan failure gives an error and no set. */
  method LoadBlocklist(path: string, source: Source) returns (r: Result<set<string>, LoadError>)
    ensures source.OpenFailure? ==> r == Failure(OpenError(path, source.cause))
    ensures source.Opened? && source.scanFailure.Some? ==> r == Failure(ReadError(path, source.scanFailure.value))
    ensures source.Opened? && source.scanFailure.None? ==> r == Success(QualifyingLines(source.lines))
  {
    var blocklist: set<string> := {};
    if source.OpenFailure? {
      return Failure(OpenError(path, source.cause));
    }
    var lines := source.lines;
    var i := 0;
    while i < |lines|
      invariant 0 <= i <= |lines|
      invariant blocklist == Entries(lines[..i])
    {
      var line := TrimSpace(lines[i]);
      assert lines[..i + 1][..i] == lines[..i];
      if line == "" || HasPrefix(line, "#") {
        i := i + 1;
        continue;
      }
      blocklist := blocklist + {line};
      i := i + 1;
    }
    if source.scanFailure.Some? {
      return Failure(ReadError(path, source.scanFailure.value));
    }
    assert lines[..i] == lines;
    EntriesAreQualifyingLines(lines);
    return Success(blocklist);
  }

  /** Some line of `lines` trims to `x`. */
  predicate TrimsTo(lines: seq<string>, x: string) {
    exists i :: 0 <= i < |lines| && TrimSpace(lines[i]) == x
  }

  /** Membership in the loop's set: exactly the trimmed qualifying lines. */
  lemma {:induction false} EntriesMember(lines: seq<string>, x: string)
    ensures x in Entries(lines) <==> IsEntry(x) && TrimsTo(lines, x)
  {
    if lines != [] {
      var init := lines[..|lines| - 1];
      var last := TrimSpace(lines[|lines| - 1]);
      assert Entries(lines) == Entries(init) + if IsEntry(last) then {last} else {};
      EntriesMember(init, x);
      if TrimsTo(init, x) {
        var i :| 0 <= i < |init| && TrimSpace(init[i]) == x;
        assert lines[i] == init[i];
      }
      if TrimsTo(lines, x) {
        var i :| 0 <= i < |lines| && TrimSpace(lines[i]) == x;
        if i < |init| {
          assert lines[i] == init[i];
          assert TrimsTo(init, x);
        } else {
          assert x == last;
        }
      }
    }
  }

  /** The loop computes the reference set. */
  lemma EntriesAreQualifyingLines(lines: seq<string>)
    ensures Entries(lines) == QualifyingLines(lines)
  {
    forall x ensures x in Entries(lines) <==> x in QualifyingLines(lines) {
      EntriesMember(lines, x);
      if x in QualifyingLines(lines) {
        var line :| line in lines && IsEntry(TrimSpace(line)) && TrimSpace(line) == x;
        var i :| 0 <= i < |lines| && lines[i] == line;
      }
    }
  }

  /** Every member is a trimmed input line that is neither empty nor a
      comment, and has no white space at either end. */
  lemma LoadedMembersAreClean(lines: seq<string>, x: string)
    requires x in QualifyingLines(lines)
    ensures x != "" && !HasPrefix(x, "#")
    ensures !IsSpace(x[0]) && !IsSpace(x[|x| - 1])
    ensures exists line :: line in lines && TrimSpace(line) == x
  {
  }

  /** Every qualifying line is loaded. */
  lemma QualifyingLineLoaded(lines: seq<string>, i: int)
    requires 0 <= i < |lines|
    requires IsEntry(TrimSpace(lines[i]))
    ensures TrimSpace(lines[i]) in QualifyingLines(lines)
  {
  }

  /** Only the set of lines matters: repeated lines and a different order
      give the same blocklist. */
  lemma LoadIgnoresOrderAndDuplicates(a: seq<string>, b: seq<string>)
    requires forall line :: line in a <==> line in b
    ensures QualifyingLines(a) == QualifyingLines(b)
  {
  }

  /** The same through the scan loop's own definition, for a permutation. */
  lemma {:induction false} EntriesPermutationInvariant(a: seq<string>, b: seq<string>)
    requires multiset(a) == multiset(b)
    ensures Entries(a) == Entries(b)
  {
    EntriesAreQualifyingLines(a);
    EntriesAreQualifyingLines(b);
    forall line ensures line in a <==> line in b {
      assert line in a <==> line in multiset(a);
      assert line in b <==> line in multiset(b);
    }
  }
}
