/**
 The line lists of the settings pages: one entry a line, surrounding white space ignored, blank
 lines and lines starting with `#` skipped.
 */
module LineLists {
  import opened GoStrings

  predicate IsEntry(trimmed: string) {
    trimmed != "" && !HasPrefix(trimmed, "#")
  }

  /** The entries among `lines`, trimmed, in order. */
  function Entries(lines: seq<string>): (entries: seq<string>)
    ensures |entries| <= |lines|
  {
    if lines == [] then []
    else
      var line := TrimSpace(lines[0]);
      if IsEntry(line) then [line] + Entries(lines[1..]) else Entries(lines[1..])
  }

  /** The entries of a settings text. */
  function EntriesOf(text: string): seq<string> {
    Entries(Split(text, '\n'))
  }

  lemma EntriesOfNone()
    ensures Entries([]) == []
  {}

  lemma {:induction false} EntriesConcat(a: seq<string>, b: seq<string>)
    ensures Entries(a + b) == Entries(a) + Entries(b)
  {
    if a == [] {
      assert a + b == b;
    } else {
      assert (a + b)[1..] == a[1..] + b;
      EntriesConcat(a[1..], b);
    }
  }

  /** A line on its own: its entry is what is left of it after trimming, unless that is nothing or a comment. */
  lemma EntriesOfLine(line: string)
    ensures var trimmed := TrimSpace(line);
            Entries([line]) == if trimmed == "" || trimmed[0] == '#' then [] else [trimmed]
  {
    hide TrimSpace;
    assert Entries([line][1..]) == [];
    var trimmed := TrimSpace(line);
    assert trimmed != "" ==> (trimmed[..1] == "#" <==> trimmed[0] == '#');
  }

  /** The entries of a text are those of its lines. */
  lemma {:induction false} EntriesAre(lines: seq<string>, entry: string)
    ensures entry in Entries(lines) <==>
            entry != "" && entry[0] != '#' && exists line <- lines :: TrimSpace(line) == entry
  {
    hide TrimSpace, Entries;
    if lines == [] {
      EntriesOfNone();
    } else {
      EntriesAre(lines[1..], entry);
      EntriesOfLine(lines[0]);
      EntriesConcat([lines[0]], lines[1..]);
      assert lines == [lines[0]] + lines[1..];
    }
  }

  /** One more line at the end adds its entry, if it is one. */
  lemma EntriesSnoc(lines: seq<string>, k: nat)
    requires k < |lines|
    ensures var line := TrimSpace(lines[k]);
            Entries(lines[..k + 1]) == Entries(lines[..k]) + (if IsEntry(line) then [line] else [])
  {
    assert lines[..k + 1] == lines[..k] + [lines[k]];
    EntriesConcat(lines[..k], [lines[k]]);
    assert Entries([lines[k]][1..]) == [];
  }

  /** An entry as it is stored: trimmed, on one line, neither blank nor a comment. */
  predicate IsStored(entry: string) {
    IsEntry(entry) && TrimSpace(entry) == entry && '\n' !in entry
  }

  lemma {:induction false} EntriesAreStored(lines: seq<string>)
    requires forall l <- lines :: '\n' !in l
    ensures forall e <- Entries(lines) :: IsStored(e)
  {
    if lines != [] {
      EntriesAreStored(lines[1..]);
      TrimSpaceSubset(lines[0]);
      TrimSpaceIdempotent(lines[0]);
    }
  }

  /** Entries written one a line are read back unchanged. */
  lemma {:induction false} EntriesOfEntries(entries: seq<string>)
    requires forall e <- entries :: IsStored(e)
    ensures Entries(entries) == entries
  {
    if entries != [] {
      EntriesOfEntries(entries[1..]);
      assert IsStored(entries[0]);
      assert [entries[0]] + entries[1..] == entries;
    }
  }
}
