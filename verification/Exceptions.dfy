/**
 URI exceptions to exploit blocking: the global list and a host's own list are merged, written out
 one a line, and split again when the nginx config is generated.
 */
module Exceptions {
  import opened Dedup
  import opened GoStrings
  import opened LineLists

  function MergedEntries(globals: string, host: string): seq<string> {
    FirstOccurrences(EntriesOf(globals) + EntriesOf(host))
  }

  function Merged(globals: string, host: string): string {
    Join(MergedEntries(globals, host), "\n")
  }

  method MergeExceptions(globals: string, host: string) returns (merged: string)
    ensures merged == Merged(globals, host)
    ensures merged == Join(FirstOccurrences(EntriesOf(globals) + EntriesOf(host)), "\n")
  {
    var patterns: seq<string> := [];
    var seen: map<string, bool> := map[];
    if globals != "" {
      patterns, seen := AppendUnseen(globals, [], patterns, seen);
    }
    EmptyTextHasNoEntries();
    assert [] + EntriesOf(globals) == EntriesOf(globals) == EntriesOf(globals) + [];
    if host != "" {
      patterns, seen := AppendUnseen(host, EntriesOf(globals), patterns, seen);
    }
    merged := Join(patterns, "\n");
  }

  /** One pass over a list; `before` are the entries the earlier pass has been over. */
  method AppendUnseen(text: string, ghost before: seq<string>, patterns: seq<string>, seen: map<string, bool>)
    returns (patterns': seq<string>, seen': map<string, bool>)
    requires patterns == FirstOccurrences(before)
    requires forall e :: e in seen <==> e in before
    ensures patterns' == FirstOccurrences(before + EntriesOf(text))
    ensures forall e :: e in seen' <==> e in before + EntriesOf(text)
  {
    hide FirstOccurrences, TrimSpace, Split, Entries;
    patterns', seen' := patterns, seen;
    var lines := Split(text, '\n');
    EntriesOfNone();
    assert lines[..0] == [];
    assert before + Entries(lines[..0]) == before;
    for i := 0 to |lines|
      invariant patterns' == FirstOccurrences(before + Entries(lines[..i]))
      invariant forall e :: e in seen' <==> e in before + Entries(lines[..i])
    {
      var line := TrimSpace(lines[i]);
      EntriesSnoc(lines, i);
      ghost var visited := before + Entries(lines[..i]);
      assert before + Entries(lines[..i + 1]) == visited + (if IsEntry(line) then [line] else []);
      FirstOccurrencesSnoc(visited, line);
      if line != "" && !HasPrefix(line, "#") && line !in seen' {
        patterns' := patterns' + [line];
        seen' := seen'[line := true];
      } else {
        assert visited + [] == visited;
        assert FirstOccurrences(visited) + [] == FirstOccurrences(visited);
      }
    }
    assert lines[..|lines|] == lines;
  }

  method SplitExceptions(text: string) returns (patterns: seq<string>)
    ensures patterns == EntriesOf(text)
  {
    patterns := [];
    if text == "" {
      return;
    }
    var lines := Split(text, '\n');
    for i := 0 to |lines|
      invariant patterns == Entries(lines[..i])
    {
      var line := TrimSpace(lines[i]);
      EntriesSnoc(lines, i);
      if !(line == "" || HasPrefix(line, "#")) {
        patterns := patterns + [line];
      }
    }
    assert lines[..|lines|] == lines;
  }

  method HasMergedExceptions(globals: string, host: string) returns (has: bool)
    ensures has <==> MergedEntries(globals, host) != []
    ensures has <==> EntriesOf(globals) != [] || EntriesOf(host) != []
  {
    NothingLost(EntriesOf(globals) + EntriesOf(host));
    has := false;
    if globals != "" {
      has := HasEntry(globals);
    }
    if !has && host != "" {
      has := HasEntry(host);
    }
  }

  method HasEntry(text: string) returns (has: bool)
    ensures has <==> EntriesOf(text) != []
  {
    var lines := Split(text, '\n');
    for i := 0 to |lines|
      invariant Entries(lines[..i]) == []
    {
      var line := TrimSpace(lines[i]);
      EntriesSnoc(lines, i);
      if line != "" && !HasPrefix(line, "#") {
        assert lines == lines[..i + 1] + lines[i + 1..];
        EntriesConcat(lines[..i + 1], lines[i + 1..]);
        return true;
      }
    }
    assert lines[..|lines|] == lines;
    return false;
  }

  // ---- laws ----

  lemma EmptyTextHasNoEntries()
    ensures EntriesOf("") == []
  {
    assert Split("", '\n') == [""] && Entries([""][1..]) == [];
  }

  lemma MergedEntriesAreStored(globals: string, host: string)
    ensures forall e <- MergedEntries(globals, host) :: IsStored(e)
  {
    SplitHasNoSeparator(globals, '\n');
    SplitHasNoSeparator(host, '\n');
    EntriesAreStored(Split(globals, '\n'));
    EntriesAreStored(Split(host, '\n'));
    NothingLost(EntriesOf(globals) + EntriesOf(host));
  }

  /**
   Splitting the merged text gives the entries of the global list followed by those of the host
   list, each at its first occurrence.
   */
  lemma SplitOfMerge(globals: string, host: string)
    ensures EntriesOf(Merged(globals, host)) == FirstOccurrences(EntriesOf(globals) + EntriesOf(host))
    ensures EntriesOf(Merged(globals, host)) == MergedEntries(globals, host)
  {
    var es := MergedEntries(globals, host);
    MergedEntriesAreStored(globals, host);
    if es != [] {
      SplitJoin(es, '\n');
      EntriesOfEntries(es);
    } else {
      EmptyTextHasNoEntries();
    }
  }

  /** Both lists are in the merged one, and nothing else is. */
  lemma MergedIsUnion(globals: string, host: string, entry: string)
    ensures entry in EntriesOf(Merged(globals, host)) <==> entry in EntriesOf(globals) || entry in EntriesOf(host)
  {
    hide EntriesOf, FirstOccurrences, Merged;
    SplitOfMerge(globals, host);
    NothingLost(EntriesOf(globals) + EntriesOf(host));
  }

  /** Merging in a list whose entries are all there already leaves the merged text as it is. */
  lemma MergeIdempotent(globals: string, host: string, more: string)
    requires forall e <- EntriesOf(more) :: e in MergedEntries(globals, host)
    ensures Merged(Merged(globals, host), more) == Merged(globals, host)
  {
    SplitOfMerge(globals, host);
    var es := MergedEntries(globals, host);
    AddKnown(es, EntriesOf(more));
    assert EntriesOf(globals) + EntriesOf(host) + [] == EntriesOf(globals) + EntriesOf(host);
    assert es + [] == es;
    FirstOccurrencesLeft(EntriesOf(globals) + EntriesOf(host), []);
  }

  /** The order in which three lists are merged in does not matter, as long as they stay in line. */
  lemma MergeAssociative(a: string, b: string, c: string)
    ensures Merged(Merged(a, b), c) == Merged(a, Merged(b, c))
  {
    hide EntriesOf, FirstOccurrences;
    SplitOfMerge(a, b);
    SplitOfMerge(b, c);
    var x, y, z := EntriesOf(a), EntriesOf(b), EntriesOf(c);
    FirstOccurrencesLeft(x + y, z);
    FirstOccurrencesRight(x, y + z);
    assert x + (y + z) == x + y + z;
  }
}
