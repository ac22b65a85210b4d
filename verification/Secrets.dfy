/** The secrets section of a platform config, edited line by line and loaded as YAML (scripts/set_secret.py). */
module Secrets {
  import opened Options

  /** The name of a top-level key other than secrets. */
  type OtherKey = name: string | name != "secrets"

  /**
   * A line, by what the editor's patterns see in it: the section header with and without an empty mapping,
   * another top-level key with nothing after it or with more on its line, an entry of the section, an encrypted
   * value, an empty line, or anything else. YAML reads some lines that the patterns do not match: a secrets
   * key with a comment (which still looks like a bare key), with quotes or with an inline value; an entry with
   * quotes, another indentation or an inline value; a value with quotes or another indentation.
   */
  datatype Line =
    | Header | BraceHeader
    | OddHeader(bare: bool) | OddInline(values: map<string, Option<string>>)
    | TopKey(key: OtherKey) | TopInline(text: string)
    | Entry(name: string) | OddEntry(name: string, inline: Option<string>)
    | Encrypted(value: string) | OddEncrypted(value: string)
    | Blank | Other(text: string)

  /** Where the editor stops: a bare top-level key. */
  predicate EndsSection(line: Line) { line.Header? || line.TopKey? || (line.OddHeader? && line.bare) }

  /** A secrets key, seen by the editor or not. */
  predicate SecretsKey(line: Line) { line.Header? || line.BraceHeader? || line.OddHeader? || line.OddInline? }

  /** Where the mapping really stops: any top-level key. */
  predicate TopLevel(line: Line) { SecretsKey(line) || line.TopKey? || line.TopInline? }

  // ----- the section as a list of entries -----

  function SectionLength(lines: seq<Line>): (n: nat)
    ensures n <= |lines|
  {
    if lines == [] || EndsSection(lines[0]) then 0 else 1 + SectionLength(lines[1..])
  }

  predicate HasEncrypted(block: seq<Line>) {
    block != [] && !block[0].Entry? && (block[0].Encrypted? || HasEncrypted(block[1..]))
  }

  function ReplaceEncrypted(block: seq<Line>, value: string): seq<Line> {
    if block == [] then []
    else if block[0].Encrypted? then [Encrypted(value)] + block[1..]
    else [block[0]] + ReplaceEncrypted(block[1..], value)
  }

  /** Writes the value into the lines that follow an entry. */
  function PutBlock(block: seq<Line>, value: string): seq<Line> {
    if HasEncrypted(block) then ReplaceEncrypted(block, value) else [Encrypted(value)] + block
  }

  /** Writes an entry into a section: in place if its name is there, else at the end. */
  function PutSection(section: seq<Line>, name: string, value: string): seq<Line> {
    if section == [] then [Entry(name), Encrypted(value)]
    else if section[0] == Entry(name) then [section[0]] + PutBlock(section[1..], value)
    else [section[0]] + PutSection(section[1..], name, value)
  }

  /** A document cut at its secrets section. */
  datatype Doc = Doc(before: seq<Line>, section: seq<Line>, after: seq<Line>)
  {
    function Lines(): seq<Line> { before + [Header] + (section + after) }
  }

  function HeaderIndex(lines: seq<Line>): (i: nat)
    ensures i <= |lines|
    ensures i < |lines| ==> lines[i].Header? || lines[i].BraceHeader?
  {
    if lines == [] || lines[0].Header? || lines[0].BraceHeader? then 0 else 1 + HeaderIndex(lines[1..])
  }

  /** The document the editor works on, its section header created or opened if need be. */
  function Parse(lines: seq<Line>): Doc {
    var i := HeaderIndex(lines);
    if i == |lines| then Doc(lines + (if lines != [] && lines[|lines| - 1] != Blank then [Blank] else []), [], [])
    else if lines[i].BraceHeader? then Doc(lines[..i], [], lines[i + 1..])
    else
      var rest := lines[i + 1..];
      Doc(lines[..i], rest[..SectionLength(rest)], rest[SectionLength(rest)..])
  }

  function Put(lines: seq<Line>, name: string, value: string): seq<Line> {
    Written(Parse(lines), name, value)
  }

  // ----- the reader: what loading the lines as YAML gives, where the last of several equal keys counts -----

  datatype Place = Outside | Section | InEntry(name: string)

  /** Where the lines below a line belong. */
  function Next(p: Place, line: Line): Place {
    match line
    case Header => Section
    case OddHeader(_) => Section
    case BraceHeader => Outside
    case OddInline(_) => Outside
    case TopKey(_) => Outside
    case TopInline(_) => Outside
    case Entry(name) => if p.Outside? then p else InEntry(name)
    case OddEntry(name, _) => if p.Outside? then p else InEntry(name)
    case _ => p
  }

  type Mapping = map<string, Option<string>>

  /** What the secrets key has been given so far; an entry without a value is null. */
  function Gathered(p: Place, m: Mapping, line: Line): Mapping {
    match line
    case Header => map[]
    case OddHeader(_) => map[]
    case BraceHeader => map[]
    case OddInline(values) => values
    case Entry(name) => if p.Outside? then m else m[name := None]
    case OddEntry(name, inline) => if p.Outside? then m else m[name := inline]
    case Encrypted(value) => if p.InEntry? then m[p.name := Some(value)] else m
    case OddEncrypted(value) => if p.InEntry? then m[p.name := Some(value)] else m
    case _ => m
  }

  function PlaceAfter(p: Place, lines: seq<Line>): Place
    decreases |lines|
  {
    if lines == [] then p else PlaceAfter(Next(p, lines[0]), lines[1..])
  }

  function Scan(p: Place, m: Mapping, lines: seq<Line>): Mapping
    decreases |lines|
  {
    if lines == [] then m else Scan(Next(p, lines[0]), Gathered(p, m, lines[0]), lines[1..])
  }

  /** The mapping under the secrets key. */
  function Loaded(lines: seq<Line>): Mapping { Scan(Outside, map[], lines) }

  predicate Holds(m: Mapping, name: string, value: string) { name in m && m[name] == Some(value) }

  predicate SameAt(a: Mapping, b: Mapping, name: string) {
    (name in a <==> name in b) && (name in a ==> a[name] == b[name])
  }

  // ----- the editor -----

  class SecretFile {
    var lines: seq<Line>

    constructor (lines: seq<Line>)
      ensures this.lines == lines
    {
      this.lines := lines;
    }

    method FindSectionEnd(start: nat) returns (end: nat)
      requires start < |lines|
      ensures end == start + 1 + SectionLength(lines[start + 1..])
    {
      end := start + 1;
      while end < |lines| && !EndsSection(lines[end])
        invariant start + 1 <= end <= |lines|
        invariant end + SectionLength(lines[end..]) == start + 1 + SectionLength(lines[start + 1..])
      {
        SliceStep(lines, end, |lines|);
        end := end + 1;
      }
    }

    method FindHeader() returns (index: nat)
      ensures index == HeaderIndex(lines)
    {
      index := 0;
      while index < |lines| && !lines[index].Header? && !lines[index].BraceHeader?
        invariant index <= |lines|
        invariant index + HeaderIndex(lines[index..]) == HeaderIndex(lines)
      {
        SliceStep(lines, index, |lines|);
        index := index + 1;
      }
    }

    method EnsureSecretSection() returns (start: nat, end: nat)
      modifies this
      ensures var doc := Parse(old(lines));
        lines == doc.Lines() && start == |doc.before| && end == start + 1 + |doc.section|
    {
      start := FindHeader();
      if start == |lines| {
        if lines != [] && lines[|lines| - 1] != Blank { lines := lines + [Blank]; }
        start := |lines|;
        lines := lines + [Header];
        end := start + 1;
      } else if lines[start].BraceHeader? {
        OpenedLines(lines, start);
        lines := lines[..start] + [Header] + lines[start + 1..];
        end := start + 1;
      } else {
        end := FindSectionEnd(start);
        CutLines(lines, start, SectionLength(lines[start + 1..]));
      }
    }

    method FindSecretBlockEnd(start: nat, sectionEnd: nat) returns (end: nat)
      requires start < sectionEnd <= |lines|
      ensures end == start + 1 + BlockLength(lines[start + 1..sectionEnd])
    {
      end := start + 1;
      while end < sectionEnd && !lines[end].Entry?
        invariant start < end <= sectionEnd
        invariant end + BlockLength(lines[end..sectionEnd]) == start + 1 + BlockLength(lines[start + 1..sectionEnd])
      {
        SliceStep(lines, end, sectionEnd);
        end := end + 1;
      }
    }

    /** The first entry of that name between two lines, or the second line if there is none. */
    method FindEntry(name: string, start: nat, end: nat) returns (index: nat)
      requires start <= end <= |lines|
      ensures index == start + EntryIndex(lines[start..end], name)
    {
      index := start;
      while index < end && lines[index] != Entry(name)
        invariant start <= index <= end
        invariant index + EntryIndex(lines[index..end], name) == start + EntryIndex(lines[start..end], name)
      {
        SliceStep(lines, index, end);
        index := index + 1;
      }
    }

    /** The first encrypted line between two lines, or the second line if there is none. */
    method FindEncrypted(start: nat, end: nat) returns (index: nat)
      requires start <= end <= |lines|
      ensures index == start + EncryptedIndex(lines[start..end])
    {
      index := start;
      while index < end && !lines[index].Encrypted?
        invariant start <= index <= end
        invariant index + EncryptedIndex(lines[index..end]) == start + EncryptedIndex(lines[start..end])
      {
        SliceStep(lines, index, end);
        index := index + 1;
      }
    }

    /** Nothing is written when YAML refuses the edited text. */
    method UpsertSecret(name: string, value: string, accepts: seq<Line> -> bool) returns (ok: bool)
      modifies this
      ensures ok == accepts(Put(old(lines), name, value))
      ensures lines == if ok then Put(old(lines), name, value) else old(lines)
    {
      var original := lines;
      EditSecret(name, value);
      ok := accepts(lines);
      if !ok { lines := original; }
    }

    method EditSecret(name: string, value: string)
      modifies this
      ensures lines == Put(old(lines), name, value)
    {
      ghost var doc := Parse(lines);
      var start, end := EnsureSecretSection();
      SectionLines(doc, PutSection(doc.section, name, value));
      Upsert(start + 1, end, name, value);
    }

    /** The search and the edit, in the section between two lines. */
    method Upsert(start: nat, end: nat, name: string, value: string)
      requires start <= end <= |lines|
      modifies this
      ensures lines == Replaced(old(lines), start, end, PutSection(old(lines)[start..end], name, value))
    {
      var entry := FindEntry(name, start, end);
      if entry == end {
        EditedEnd(lines, start, end, name, value);
        lines := Replaced(lines, end, end, [Entry(name), Encrypted(value)]);
        return;
      }
      var blockEnd := FindSecretBlockEnd(entry, end);
      var encrypted := FindEncrypted(entry + 1, blockEnd);
      if encrypted == blockEnd {
        EditedInserted(lines, start, end, name, value, entry, blockEnd, encrypted);
        lines := Replaced(lines, entry + 1, entry + 1, [Encrypted(value)]);
      } else {
        EditedReplaced(lines, start, end, name, value, entry, blockEnd, encrypted);
        lines := Replaced(lines, encrypted, encrypted + 1, [Encrypted(value)]);
      }
    }
  }

  /** Slice assignment: lines i to j replaced. */
  function Replaced(lines: seq<Line>, i: nat, j: nat, mid: seq<Line>): seq<Line>
    requires i <= j <= |lines|
  {
    lines[..i] + mid + lines[j..]
  }

  lemma {:induction false} EditedEnd(lines: seq<Line>, start: nat, end: nat, name: string, value: string)
    requires start <= end <= |lines| && start + EntryIndex(lines[start..end], name) == end
    ensures Replaced(lines, start, end, PutSection(lines[start..end], name, value))
         == Replaced(lines, end, end, [Entry(name), Encrypted(value)])
  {
    PutAbsent(lines[start..end], name, value);
    AppendAt(lines, start, end, [Entry(name), Encrypted(value)]);
  }

  /** The entry at that position, and where its block and its encrypted line are. */
  ghost predicate Found(lines: seq<Line>, start: nat, end: nat, name: string, entry: nat, blockEnd: nat, encrypted: nat) {
    && start <= end <= |lines| && entry == start + EntryIndex(lines[start..end], name) < end
    && blockEnd == entry + 1 + BlockLength(lines[entry + 1..end])
    && encrypted == entry + 1 + EncryptedIndex(lines[entry + 1..blockEnd])
  }

  lemma {:induction false} EditedInserted(lines: seq<Line>, start: nat, end: nat, name: string, value: string,
                                          entry: nat, blockEnd: nat, encrypted: nat)
    requires Found(lines, start, end, name, entry, blockEnd, encrypted) && encrypted == blockEnd
    ensures Replaced(lines, start, end, PutSection(lines[start..end], name, value))
         == Replaced(lines, entry + 1, entry + 1, [Encrypted(value)])
  {
    var section := lines[start..end];
    Edited(lines, section, start, end, name, value, entry, blockEnd, encrypted);
    Splice(lines, section, start, end, entry + 1, entry + 1, Encrypted(value));
  }

  lemma {:induction false} EditedReplaced(lines: seq<Line>, start: nat, end: nat, name: string, value: string,
                                          entry: nat, blockEnd: nat, encrypted: nat)
    requires Found(lines, start, end, name, entry, blockEnd, encrypted) && encrypted < blockEnd
    ensures Replaced(lines, start, end, PutSection(lines[start..end], name, value))
         == Replaced(lines, encrypted, encrypted + 1, [Encrypted(value)])
  {
    var section := lines[start..end];
    Edited(lines, section, start, end, name, value, entry, blockEnd, encrypted);
    Splice(lines, section, start, end, encrypted, encrypted + 1, Encrypted(value));
  }

  lemma {:induction false} AppendAt(lines: seq<Line>, start: nat, end: nat, more: seq<Line>)
    requires start <= end <= |lines|
    ensures lines[..end] + more + lines[end..] == lines[..start] + (lines[start..end] + more) + lines[end..]
  {
    assert lines[..start] + lines[start..end] == lines[..end];
  }

  lemma {:induction false} Edited(lines: seq<Line>, section: seq<Line>, start: nat, end: nat, name: string, value: string,
                                  entry: nat, blockEnd: nat, encrypted: nat)
    requires Found(lines, start, end, name, entry, blockEnd, encrypted) && section == lines[start..end]
    ensures var at, put := encrypted - start, PutSection(section, name, value);
      if encrypted == blockEnd then put == section[..entry + 1 - start] + [Encrypted(value)] + section[entry + 1 - start..]
      else put == section[..at] + [Encrypted(value)] + section[at + 1..]
  {
    var k, size, m := entry + 1 - start, blockEnd - entry - 1, encrypted - entry - 1;
    SliceOfSlice(lines, start, k, end, blockEnd);
    PutPresent(section, name, value, k, size, m);
  }

  function Written(doc: Doc, name: string, value: string): seq<Line> {
    doc.(section := PutSection(doc.section, name, value)).Lines()
  }

  lemma {:induction false} SectionLines(doc: Doc, section: seq<Line>)
    ensures var lines, start := doc.Lines(), |doc.before| + 1; var end := start + |doc.section|;
      end <= |lines| && lines[start..end] == doc.section
      && lines[..start] + section + lines[end..] == doc.(section := section).Lines()
  {
    var lines, start := doc.Lines(), |doc.before| + 1;
    assert lines[..start] == doc.before + [Header];
    assert lines[start + |doc.section|..] == doc.after;
  }

  lemma {:induction false} SliceStep(lines: seq<Line>, i: nat, j: nat)
    requires i < j <= |lines|
    ensures lines[i..j] == [lines[i]] + lines[i + 1..j]
    ensures lines[i..j][0] == lines[i] && lines[i..j][1..] == lines[i + 1..j]
    ensures j == |lines| ==> lines[i..j] == lines[i..] && lines[i + 1..j] == lines[i + 1..]
  {}

  lemma {:induction false} SliceOfSlice(lines: seq<Line>, start: nat, k: nat, end: nat, stop: nat)
    requires start + k <= stop <= end <= |lines|
    ensures lines[start..end][k..] == lines[start + k..end]
    ensures lines[start..end][k..][..stop - start - k] == lines[start + k..stop]
  {}

  /** Replacing lines i to j of the part from start to end. */
  lemma {:induction false} Splice(lines: seq<Line>, section: seq<Line>, start: nat, end: nat, i: nat, j: nat, line: Line)
    requires start <= i <= j <= end <= |lines| && section == lines[start..end]
    ensures lines[..i] + [line] + lines[j..] ==
      lines[..start] + (section[..i - start] + [line] + section[j - start..]) + lines[end..]
  {
    assert section[..i - start] == lines[start..i];
    assert section[j - start..] == lines[j..end];
    assert lines[..start] + lines[start..i] == lines[..i];
    assert lines[j..end] + lines[end..] == lines[j..];
  }

  // ----- where the editor finds things -----

  function EntryIndex(section: seq<Line>, name: string): (i: nat)
    ensures i <= |section| && (i < |section| ==> section[i] == Entry(name))
  {
    if section == [] || section[0] == Entry(name) then 0 else 1 + EntryIndex(section[1..], name)
  }

  function BlockLength(block: seq<Line>): (n: nat)
    ensures n <= |block|
  {
    if block == [] || block[0].Entry? then 0 else 1 + BlockLength(block[1..])
  }

  function EncryptedIndex(block: seq<Line>): (i: nat)
    ensures i <= |block| && (i < |block| ==> block[i].Encrypted?)
  {
    if block == [] || block[0].Encrypted? then 0 else 1 + EncryptedIndex(block[1..])
  }

  lemma {:induction false} PutAbsent(section: seq<Line>, name: string, value: string)
    requires EntryIndex(section, name) == |section|
    ensures PutSection(section, name, value) == section[..|section|] + [Entry(name), Encrypted(value)] + section[|section|..]
  {
    if section != [] { PutAbsent(section[1..], name, value); }
  }

  /** An entry whose block has no encrypted line gets one right after it, otherwise the first one is replaced. */
  lemma {:induction false} PutPresent(section: seq<Line>, name: string, value: string, k: nat, size: nat, m: nat)
    requires k == EntryIndex(section, name) + 1 <= |section|
    requires size == BlockLength(section[k..]) && m == EncryptedIndex(section[k..][..size])
    ensures m == size ==> PutSection(section, name, value) == section[..k] + [Encrypted(value)] + section[k..]
    ensures m < size ==> PutSection(section, name, value) == section[..k + m] + [Encrypted(value)] + section[k + m + 1..]
  {
    PutHead(section, name, value, k);
    PutBlockAt(section[k..], value, size, m);
    if m < size { JoinAround(section, k, m, Encrypted(value)); }
  }

  lemma {:induction false} PutHead(section: seq<Line>, name: string, value: string, k: nat)
    requires k == EntryIndex(section, name) + 1 <= |section|
    ensures PutSection(section, name, value) == section[..k] + PutBlock(section[k..], value)
  {
    if k > 1 {
      PutHead(section[1..], name, value, k - 1);
      assert section[1..][k - 1..] == section[k..];
    }
  }

  lemma {:induction false} PutBlockAt(block: seq<Line>, value: string, size: nat, m: nat)
    requires size == BlockLength(block) && m == EncryptedIndex(block[..size])
    ensures HasEncrypted(block) == (m < size)
    ensures m < size ==> ReplaceEncrypted(block, value) == block[..m] + [Encrypted(value)] + block[m + 1..]
  {
    if size > 0 && m > 0 {
      assert block[..size][1..] == block[1..][..size - 1];
      PutBlockAt(block[1..], value, size - 1, m - 1);
      if m < size { Shift(block, m, Encrypted(value)); }
    }
  }

  lemma {:induction false} Shift(block: seq<Line>, m: nat, line: Line)
    requires 0 < m < |block|
    ensures [block[0]] + (block[1..][..m - 1] + [line] + block[1..][m..]) == block[..m] + [line] + block[m + 1..]
  {
    assert block[..m] == [block[0]] + block[1..][..m - 1];
  }

  lemma {:induction false} JoinAround(lines: seq<Line>, k: nat, m: nat, line: Line)
    requires k + m < |lines|
    ensures lines[..k] + (lines[k..][..m] + [line] + lines[k..][m + 1..]) == lines[..k + m] + [line] + lines[k + m + 1..]
    ensures lines[..k] + ([line] + lines[k..]) == lines[..k] + [line] + lines[k..]
  {
    assert lines[k..][m + 1..] == lines[k + m + 1..];
    assert lines[..k] + lines[k..][..m] == lines[..k + m];
  }

  // ----- cutting a document at its section -----

  lemma {:induction false} OpenedLines(lines: seq<Line>, i: nat)
    requires i == HeaderIndex(lines) < |lines| && lines[i].BraceHeader?
    ensures Parse(lines).Lines() == lines[..i] + [Header] + lines[i + 1..]
  {}

  lemma {:induction false} CutLines(lines: seq<Line>, i: nat, n: nat)
    requires i == HeaderIndex(lines) < |lines| && lines[i].Header? && n == SectionLength(lines[i + 1..])
    ensures Parse(lines).Lines() == lines
  {
    Rejoined(lines, i, n);
    assert Parse(lines).before == lines[..i];
    assert Parse(lines).section == lines[i + 1..][..n];
    assert Parse(lines).after == lines[i + 1..][n..];
  }

  lemma {:induction false} Rejoined(lines: seq<Line>, i: nat, n: nat)
    requires i < |lines| && n <= |lines[i + 1..]|
    ensures lines[..i] + [lines[i]] + (lines[i + 1..][..n] + lines[i + 1..][n..]) == lines
  {
    assert lines[i + 1..][..n] + lines[i + 1..][n..] == lines[i + 1..];
  }

  // ----- the edited document parses to the edited section -----

  predicate NoHeader(lines: seq<Line>) { forall line :: line in lines ==> !line.Header? && !line.BraceHeader? }

  predicate Stops(after: seq<Line>) { after == [] || EndsSection(after[0]) }

  predicate Closed(section: seq<Line>) { forall line :: line in section ==> !EndsSection(line) }

  lemma {:induction false} HeaderIndexAt(before: seq<Line>, rest: seq<Line>)
    requires NoHeader(before) && rest != [] && (rest[0].Header? || rest[0].BraceHeader?)
    ensures HeaderIndex(before + rest) == |before|
  {
    if before == [] {
      assert before + rest == rest;
    } else {
      assert (before + rest)[1..] == before[1..] + rest;
      HeaderIndexAt(before[1..], rest);
    }
  }

  lemma {:induction false} NoHeaderBefore(lines: seq<Line>)
    ensures NoHeader(lines[..HeaderIndex(lines)])
  {
    if lines != [] && !lines[0].Header? && !lines[0].BraceHeader? {
      NoHeaderBefore(lines[1..]);
      assert lines[..HeaderIndex(lines)] == [lines[0]] + lines[1..][..HeaderIndex(lines[1..])];
    }
  }

  lemma {:induction false} SectionLengthAt(section: seq<Line>, after: seq<Line>)
    requires Closed(section) && Stops(after)
    ensures SectionLength(section + after) == |section|
  {
    if section == [] {
      assert section + after == after;
    } else {
      assert section[0] in section;
      assert (section + after)[1..] == section[1..] + after;
      SectionLengthAt(section[1..], after);
    }
  }

  lemma {:induction false} SectionIsClosed(lines: seq<Line>)
    ensures Closed(lines[..SectionLength(lines)]) && Stops(lines[SectionLength(lines)..])
  {
    if lines != [] && !EndsSection(lines[0]) {
      SectionIsClosed(lines[1..]);
      assert lines[..SectionLength(lines)] == [lines[0]] + lines[1..][..SectionLength(lines[1..])];
    }
  }

  lemma {:induction false} PutStaysClosed(section: seq<Line>, name: string, value: string)
    requires Closed(section)
    ensures Closed(PutSection(section, name, value))
  {
    if section != [] {
      assert section == [section[0]] + section[1..];
      if section[0] == Entry(name) {
        ReplaceStaysClosed(section[1..], value);
      } else {
        PutStaysClosed(section[1..], name, value);
      }
    }
  }

  lemma {:induction false} ReplaceStaysClosed(block: seq<Line>, value: string)
    requires Closed(block)
    ensures Closed(ReplaceEncrypted(block, value))
  {
    if block != [] {
      assert block == [block[0]] + block[1..];
      ReplaceStaysClosed(block[1..], value);
    }
  }

  predicate HasHeader(lines: seq<Line>) {
    HeaderIndex(lines) < |lines| && lines[HeaderIndex(lines)].Header?
  }

  lemma {:induction false} ParseShape(lines: seq<Line>)
    ensures NoHeader(Parse(lines).before)
    ensures HasHeader(lines) ==> Closed(Parse(lines).section) && Stops(Parse(lines).after) && Parse(lines).Lines() == lines
    ensures !HasHeader(lines) ==> Parse(lines).section == []
  {
    var i := HeaderIndex(lines);
    NoHeaderBefore(lines);
    if i == |lines| {
      assert lines[..i] == lines;
    } else if lines[i].Header? {
      SectionIsClosed(lines[i + 1..]);
      CutLines(lines, i, SectionLength(lines[i + 1..]));
    }
  }

  lemma {:induction false} LinesTail(doc: Doc)
    requires NoHeader(doc.before)
    ensures HasHeader(doc.Lines()) && HeaderIndex(doc.Lines()) == |doc.before|
    ensures doc.Lines()[..|doc.before|] == doc.before && doc.Lines()[|doc.before| + 1..] == doc.section + doc.after
  {
    HeaderIndexAt(doc.before, [Header] + (doc.section + doc.after));
    assert doc.Lines() == doc.before + ([Header] + (doc.section + doc.after));
  }

  // ----- the one line a write sets -----

  /** What stands before and after the encrypted line that a write sets. */
  datatype Spot = Spot(pre: seq<Line>, post: seq<Line>)

  function BlockSpot(block: seq<Line>): Spot
    requires HasEncrypted(block)
  {
    if block[0].Encrypted? then Spot([], block[1..])
    else
      var rest := BlockSpot(block[1..]);
      Spot([block[0]] + rest.pre, rest.post)
  }

  function SectionSpot(section: seq<Line>, name: string): Spot {
    if section == [] then Spot([Entry(name)], [])
    else if section[0] == Entry(name) then
      if HasEncrypted(section[1..]) then
        var rest := BlockSpot(section[1..]);
        Spot([section[0]] + rest.pre, rest.post)
      else Spot([section[0]], section[1..])
    else
      var rest := SectionSpot(section[1..], name);
      Spot([section[0]] + rest.pre, rest.post)
  }

  function SpotOf(lines: seq<Line>, name: string): Spot {
    var doc := Parse(lines);
    var spot := SectionSpot(doc.section, name);
    Spot(doc.before + [Header] + spot.pre, spot.post + doc.after)
  }

  lemma {:induction false} Prepend(first: Line, spot: Spot, line: Line)
    ensures [first] + (spot.pre + [line] + spot.post) == ([first] + spot.pre) + [line] + spot.post
  {}

  lemma {:induction false} ReplaceAtSpot(block: seq<Line>, value: string)
    requires HasEncrypted(block)
    ensures ReplaceEncrypted(block, value) == BlockSpot(block).pre + [Encrypted(value)] + BlockSpot(block).post
  {
    if !block[0].Encrypted? {
      ReplaceAtSpot(block[1..], value);
      Prepend(block[0], BlockSpot(block[1..]), Encrypted(value));
    }
  }

  lemma {:induction false} PutSectionAtSpot(section: seq<Line>, name: string, value: string)
    ensures var spot := SectionSpot(section, name);
      PutSection(section, name, value) == spot.pre + [Encrypted(value)] + spot.post
  {
    if section != [] {
      if section[0] != Entry(name) {
        PutSectionAtSpot(section[1..], name, value);
        Prepend(section[0], SectionSpot(section[1..], name), Encrypted(value));
      } else if HasEncrypted(section[1..]) {
        ReplaceAtSpot(section[1..], value);
        Prepend(section[0], BlockSpot(section[1..]), Encrypted(value));
      }
    }
  }

  /** Whatever the value, a write sets one line in the same place. */
  lemma {:induction false} PutAtSpot(lines: seq<Line>, name: string, value: string)
    ensures var spot := SpotOf(lines, name); Put(lines, name, value) == spot.pre + [Encrypted(value)] + spot.post
  {
    var doc := Parse(lines);
    PutSectionAtSpot(doc.section, name, value);
  }

  // ----- what the reader makes of it -----

  lemma {:induction false} PlaceAfterAppend(p: Place, a: seq<Line>, b: seq<Line>)
    ensures PlaceAfter(p, a + b) == PlaceAfter(PlaceAfter(p, a), b)
    decreases |a|
  {
    if a == [] {
      assert a + b == b;
    } else {
      assert (a + b)[1..] == a[1..] + b;
      PlaceAfterAppend(Next(p, a[0]), a[1..], b);
    }
  }

  lemma {:induction false} ScanAppend(p: Place, m: Mapping, a: seq<Line>, b: seq<Line>)
    ensures Scan(p, m, a + b) == Scan(PlaceAfter(p, a), Scan(p, m, a), b)
    decreases |a|
  {
    if a == [] {
      assert a + b == b;
    } else {
      assert (a + b)[1..] == a[1..] + b;
      ScanAppend(Next(p, a[0]), Gathered(p, m, a[0]), a[1..], b);
    }
  }

  /** A line that gives the name a value, or null, in this place. */
  predicate Sets(p: Place, line: Line, name: string) {
    || (!p.Outside? && (line.Entry? || line.OddEntry?) && line.name == name)
    || (p == InEntry(name) && (line.Encrypted? || line.OddEncrypted?))
  }

  /** Nothing in these lines overrides what the name has: no further secrets key, entry of that name, or value of it. */
  predicate Untouched(p: Place, lines: seq<Line>, name: string)
    decreases |lines|
  {
    lines == [] || (!SecretsKey(lines[0]) && !Sets(p, lines[0], name) && Untouched(Next(p, lines[0]), lines[1..], name))
  }

  lemma {:induction false} UntouchedAppend(p: Place, a: seq<Line>, b: seq<Line>, name: string)
    ensures Untouched(p, a + b, name) <==> Untouched(p, a, name) && Untouched(PlaceAfter(p, a), b, name)
    decreases |a|
  {
    if a == [] {
      assert a + b == b;
    } else {
      assert (a + b)[1..] == a[1..] + b;
      UntouchedAppend(Next(p, a[0]), a[1..], b, name);
    }
  }

  lemma {:induction false} UntouchedKeeps(p: Place, m: Mapping, lines: seq<Line>, name: string)
    requires Untouched(p, lines, name)
    ensures SameAt(Scan(p, m, lines), m, name)
    decreases |lines|
  {
    if lines != [] { UntouchedKeeps(Next(p, lines[0]), Gathered(p, m, lines[0]), lines[1..], name); }
  }

  lemma {:induction false} SameAtStays(p: Place, m: Mapping, n: Mapping, lines: seq<Line>, name: string)
    requires SameAt(m, n, name)
    ensures SameAt(Scan(p, m, lines), Scan(p, n, lines), name)
    decreases |lines|
  {
    if lines != [] {
      SameAtStays(Next(p, lines[0]), Gathered(p, m, lines[0]), Gathered(p, n, lines[0]), lines[1..], name);
    }
  }

  /** An overridden name ends up the same, whatever it had before. */
  lemma {:induction false} TouchedForgets(p: Place, m: Mapping, n: Mapping, lines: seq<Line>, name: string)
    requires !Untouched(p, lines, name)
    ensures SameAt(Scan(p, m, lines), Scan(p, n, lines), name)
    decreases |lines|
  {
    var left, right := Gathered(p, m, lines[0]), Gathered(p, n, lines[0]);
    if SecretsKey(lines[0]) || Sets(p, lines[0], name) {
      SameAtStays(Next(p, lines[0]), left, right, lines[1..], name);
    } else {
      TouchedForgets(Next(p, lines[0]), left, right, lines[1..], name);
    }
  }

  /** The line a write sets belongs to the name's entry under the secrets key, and nothing below overrides it. */
  predicate Lands(lines: seq<Line>, name: string) {
    var spot := SpotOf(lines, name);
    PlaceAfter(Outside, spot.pre) == InEntry(name) && Untouched(InEntry(name), spot.post, name)
  }

  lemma {:induction false} LoadedAtSpot(pre: seq<Line>, value: string, post: seq<Line>)
    ensures var p, m := PlaceAfter(Outside, pre), Scan(Outside, map[], pre);
      Loaded(pre + [Encrypted(value)] + post) == Scan(p, Gathered(p, m, Encrypted(value)), post)
  {
    var tail := [Encrypted(value)] + post;
    assert pre + [Encrypted(value)] + post == pre + tail && tail[1..] == post;
    ScanAppend(Outside, map[], pre, tail);
  }

  /** A line that is not this name's own, or is overridden, has no part in what the name has. */
  lemma {:induction false} SpotMatters(spot: Spot, name: string, one: string, two: string)
    ensures var a, b := Loaded(spot.pre + [Encrypted(one)] + spot.post), Loaded(spot.pre + [Encrypted(two)] + spot.post);
      if PlaceAfter(Outside, spot.pre) == InEntry(name) && Untouched(InEntry(name), spot.post, name)
      then Holds(a, name, one) && Holds(b, name, two) else SameAt(a, b, name)
  {
    var p, m := PlaceAfter(Outside, spot.pre), Scan(Outside, map[], spot.pre);
    LoadedAtSpot(spot.pre, one, spot.post);
    LoadedAtSpot(spot.pre, two, spot.post);
    var a, b := Gathered(p, m, Encrypted(one)), Gathered(p, m, Encrypted(two));
    if p != InEntry(name) {
      SameAtStays(p, a, b, spot.post, name);
    } else if Untouched(p, spot.post, name) {
      UntouchedKeeps(p, a, spot.post, name);
      UntouchedKeeps(p, b, spot.post, name);
    } else {
      TouchedForgets(p, a, b, spot.post, name);
    }
  }

  /**
   * A write is read back, whatever the value, exactly when its line lands. Otherwise what is read does not
   * depend on the written value at all.
   */
  lemma {:induction false} PutGet(lines: seq<Line>, name: string)
    ensures (forall value :: Holds(Loaded(Put(lines, name, value)), name, value)) <==> Lands(lines, name)
    ensures !Lands(lines, name) ==>
      forall one, two :: SameAt(Loaded(Put(lines, name, one)), Loaded(Put(lines, name, two)), name)
  {
    forall one, two
      ensures if Lands(lines, name) then Holds(Loaded(Put(lines, name, one)), name, one)
              else SameAt(Loaded(Put(lines, name, one)), Loaded(Put(lines, name, two)), name)
    {
      PutAtSpot(lines, name, one);
      PutAtSpot(lines, name, two);
      SpotMatters(SpotOf(lines, name), name, one, two);
    }
    if forall value :: Holds(Loaded(Put(lines, name, value)), name, value) {
      assert Holds(Loaded(Put(lines, name, "a")), name, "a") && Holds(Loaded(Put(lines, name, "b")), name, "b");
    }
  }

  // ----- every other name -----

  /** What the editor finds under a name: no entry, an entry without a value, or its first value. */
  function Visible(section: seq<Line>, name: string): Option<Option<string>> {
    if section == [] then None
    else if section[0] != Entry(name) then Visible(section[1..], name)
    else if HasEncrypted(section[1..]) then Some(Some(FirstValue(section[1..])))
    else Some(None)
  }

  function FirstValue(block: seq<Line>): string
    requires HasEncrypted(block)
  {
    if block[0].Encrypted? then block[0].value else FirstValue(block[1..])
  }

  lemma {:induction false} BlockOrigin(block: seq<Line>)
    requires HasEncrypted(block)
    ensures block == BlockSpot(block).pre + [Encrypted(FirstValue(block))] + BlockSpot(block).post
  {
    if !block[0].Encrypted? { BlockOrigin(block[1..]); }
  }

  /** The section around the spot: the value there is replaced, or one is inserted, or an entry is added at the end. */
  lemma {:induction false} SectionOrigin(section: seq<Line>, name: string)
    ensures var spot, found := SectionSpot(section, name), Visible(section, name);
      && (found.None? ==> spot == Spot(section + [Entry(name)], []))
      && (found == Some(None) ==> section == spot.pre + spot.post)
      && (found.Some? && found.value.Some? ==> section == spot.pre + [Encrypted(found.value.value)] + spot.post)
  {
    if section != [] {
      if section[0] == Entry(name) {
        if HasEncrypted(section[1..]) { BlockOrigin(section[1..]); }
      } else {
        SectionOrigin(section[1..], name);
        assert section == [section[0]] + section[1..];
      }
    }
  }

  /** A value is only inserted, and an entry only added, right below the entry line. */
  lemma {:induction false} FreshPlace(section: seq<Line>, name: string, p: Place)
    requires Visible(section, name).None? || Visible(section, name).value.None?
    ensures var q := PlaceAfter(p, SectionSpot(section, name).pre); q.Outside? || q == InEntry(name)
    decreases |section|
  {
    var pre := SectionSpot(section, name).pre;
    if section == [] || section[0] == Entry(name) {
      assert pre == [Entry(name)] && pre[1..] == [];
    } else {
      assert pre[0] == section[0] && pre[1..] == SectionSpot(section[1..], name).pre;
      FreshPlace(section[1..], name, Next(p, section[0]));
    }
  }

  /** The editor took another name's value for this one's, and nothing below overrides it. */
  predicate Strikes(lines: seq<Line>, name: string, value: string, other: string) {
    var spot, found := SpotOf(lines, name), Visible(Parse(lines).section, name);
    && found.Some? && found.value.Some? && found.value != Some(value)
    && PlaceAfter(Outside, spot.pre) == InEntry(other) && Untouched(InEntry(other), spot.post, other)
  }

  predicate HasSecretsKey(lines: seq<Line>) {
    lines != [] && (SecretsKey(lines[0]) || HasSecretsKey(lines[1..]))
  }

  /** What lines below an empty mapping say once the mapping is opened for a name; nothing when another key follows. */
  function Opened(below: seq<Line>, name: string): Mapping {
    if HasSecretsKey(below) then map[] else Scan(InEntry(name), map[], below)
  }

  /** What a write leaves alone, by the guard the editor takes. */
  predicate Keeps(lines: seq<Line>, name: string, value: string, other: string) {
    var i := HeaderIndex(lines);
    if i == |lines| then other !in Loaded(lines)
    else if lines[i].BraceHeader? then other !in Opened(lines[i + 1..], name)
    else !Strikes(lines, name, value, other)
  }

  /** Writing one name leaves what another one has exactly when Keeps says so. */
  lemma {:induction false} PutKeepsOthers(lines: seq<Line>, name: string, value: string, other: string)
    requires other != name
    ensures SameAt(Loaded(Put(lines, name, value)), Loaded(lines), other) <==> Keeps(lines, name, value, other)
  {
    var i := HeaderIndex(lines);
    if i == |lines| {
      UnseenHeaderLosesOthers(lines, name, value);
    } else if lines[i].BraceHeader? {
      OpenedOthers(lines, name, value, other);
    } else {
      SectionOthers(lines, name, value, other);
    }
  }

  lemma {:induction false} SpotOrigin(lines: seq<Line>, name: string)
    requires HasHeader(lines)
    ensures var doc, spot := Parse(lines), SpotOf(lines, name); var found := Visible(doc.section, name);
      && (found.None? ==>
            lines == doc.before + [Header] + doc.section + doc.after
            && spot == Spot(doc.before + [Header] + doc.section + [Entry(name)], doc.after))
      && (found == Some(None) ==> lines == spot.pre + spot.post)
      && (found.Some? && found.value.Some? ==> lines == spot.pre + [Encrypted(found.value.value)] + spot.post)
  {
    var doc := Parse(lines);
    ParseShape(lines);
    SectionOrigin(doc.section, name);
    Surround(doc.before + [Header], doc.section, doc.after, SectionSpot(doc.section, name));
  }

  lemma {:induction false} Surround(front: seq<Line>, section: seq<Line>, after: seq<Line>, spot: Spot)
    ensures front + (section + after) == front + section + after
    ensures section == spot.pre + spot.post ==> front + (section + after) == (front + spot.pre) + (spot.post + after)
    ensures forall line :: section == spot.pre + [line] + spot.post ==>
      front + (section + after) == (front + spot.pre) + [line] + (spot.post + after)
    ensures forall line :: spot == Spot(section + [line], []) ==>
      front + spot.pre == front + section + [line] && spot.post + after == after
  {
    forall line | section == spot.pre + [line] + spot.post
      ensures front + (section + after) == (front + spot.pre) + [line] + (spot.post + after) {}
  }

  lemma {:induction false} SectionOthers(lines: seq<Line>, name: string, value: string, other: string)
    requires other != name && HasHeader(lines)
    ensures SameAt(Loaded(Put(lines, name, value)), Loaded(lines), other) <==> !Strikes(lines, name, value, other)
  {
    var spot, found := SpotOf(lines, name), Visible(Parse(lines).section, name);
    PutAtSpot(lines, name, value);
    SpotOrigin(lines, name);
    if found.Some? && found.value.Some? {
      SpotMatters(spot, other, found.value.value, value);
    } else {
      SpotIsFresh(lines, name);
      if found.Some? {
        InsertedOthers(spot, name, value, other);
      } else {
        var doc := Parse(lines);
        ParseShape(lines);
        InsertedOthers(spot, name, value, other);
        AddedOthers(doc.before + [Header] + doc.section, doc.after, name, other);
      }
    }
  }

  lemma {:induction false} SpotIsFresh(lines: seq<Line>, name: string)
    requires var found := Visible(Parse(lines).section, name); found.None? || found.value.None?
    ensures var q := PlaceAfter(Outside, SpotOf(lines, name).pre); q.Outside? || q == InEntry(name)
  {
    var doc := Parse(lines);
    var front := doc.before + [Header];
    FreshPlace(doc.section, name, PlaceAfter(Outside, front));
    PlaceAfterAppend(Outside, front, SectionSpot(doc.section, name).pre);
  }

  /** A value inserted below its own entry, or outside the mapping, means nothing to another name. */
  lemma {:induction false} InsertedOthers(spot: Spot, name: string, value: string, other: string)
    requires var q := PlaceAfter(Outside, spot.pre); other != name && (q.Outside? || q == InEntry(name))
    ensures SameAt(Loaded(spot.pre + [Encrypted(value)] + spot.post), Loaded(spot.pre + spot.post), other)
  {
    var q, m := PlaceAfter(Outside, spot.pre), Scan(Outside, map[], spot.pre);
    LoadedAtSpot(spot.pre, value, spot.post);
    ScanAppend(Outside, map[], spot.pre, spot.post);
    SameAtStays(q, Gathered(q, m, Encrypted(value)), m, spot.post, other);
  }

  lemma {:induction false} ScanCons(p: Place, m: Mapping, line: Line, rest: seq<Line>)
    ensures Scan(p, m, [line] + rest) == Scan(Next(p, line), Gathered(p, m, line), rest)
  {
    assert ([line] + rest)[1..] == rest;
  }

  /** An entry added where the section ends: a bare top-level key follows, so no line below belongs to it. */
  lemma {:induction false} AddedOthers(front: seq<Line>, after: seq<Line>, name: string, other: string)
    requires other != name && Stops(after)
    ensures SameAt(Loaded(front + [Entry(name)] + after), Loaded(front + after), other)
  {
    var p, m := PlaceAfter(Outside, front), Scan(Outside, map[], front);
    var q, n := Next(p, Entry(name)), Gathered(p, m, Entry(name));
    assert front + [Entry(name)] + after == front + ([Entry(name)] + after);
    ScanAppend(Outside, map[], front, [Entry(name)] + after);
    ScanAppend(Outside, map[], front, after);
    ScanCons(p, m, Entry(name), after);
    if after != [] {
      SameAtStays(Next(p, after[0]), Gathered(q, n, after[0]), Gathered(p, m, after[0]), after[1..], other);
    }
  }

  /** A new section of one entry, whatever was gathered above it. */
  lemma {:induction false} ScanAdded(p: Place, m: Mapping, name: string, value: string, rest: seq<Line>)
    ensures Scan(p, m, [Header, Entry(name), Encrypted(value)] + rest)
         == Scan(InEntry(name), map[name := Some(value)], rest)
  {
    var none: Mapping := map[];
    var tail := [Encrypted(value)] + rest;
    assert [Header, Entry(name), Encrypted(value)] + rest == [Header] + ([Entry(name)] + tail);
    ScanCons(p, m, Header, [Entry(name)] + tail);
    ScanCons(Section, none, Entry(name), tail);
    ScanCons(InEntry(name), none[name := None], Encrypted(value), rest);
    assert none[name := None][name := Some(value)] == map[name := Some(value)];
  }

  /** A new key replaces whatever an unseen one held: the written name is all that is left. */
  lemma {:induction false} UnseenHeaderLosesOthers(lines: seq<Line>, name: string, value: string)
    requires HeaderIndex(lines) == |lines|
    ensures Loaded(Put(lines, name, value)) == map[name := Some(value)]
  {
    var front, added := Parse(lines).before, [Header, Entry(name), Encrypted(value)];
    assert Put(lines, name, value) == front + (added + []);
    ScanAppend(Outside, map[], front, added + []);
    ScanAdded(PlaceAfter(Outside, front), Scan(Outside, map[], front), name, value, []);
  }

  /** Such a file: a header with a comment over one entry, whose value any write of another name removes. */
  lemma {:induction false} CommentedHeaderLosesEntry(name: string, value: string, other: string, stored: string)
    requires other != name
    ensures var lines := [OddHeader(true), Entry(other), Encrypted(stored)];
      Loaded(lines) == map[other := Some(stored)] && other !in Loaded(Put(lines, name, value))
  {
    var lines, none: Mapping := [OddHeader(true), Entry(other), Encrypted(stored)], map[];
    assert lines == [OddHeader(true)] + ([Entry(other)] + ([Encrypted(stored)] + []));
    ScanCons(Outside, none, OddHeader(true), [Entry(other)] + ([Encrypted(stored)] + []));
    ScanCons(Section, none, Entry(other), [Encrypted(stored)] + []);
    ScanCons(InEntry(other), none[other := None], Encrypted(stored), []);
    assert none[other := None][other := Some(stored)] == map[other := Some(stored)];
    assert HeaderIndex(lines[1..][1..]) == 1 && HeaderIndex(lines[1..]) == 2;
    UnseenHeaderLosesOthers(lines, name, value);
  }

  lemma {:induction false} KeyForgets(p: Place, m: Mapping, q: Place, n: Mapping, lines: seq<Line>)
    requires HasSecretsKey(lines)
    ensures Scan(p, m, lines) == Scan(q, n, lines)
    decreases |lines|
  {
    if !SecretsKey(lines[0]) {
      KeyForgets(Next(p, lines[0]), Gathered(p, m, lines[0]), Next(q, lines[0]), Gathered(q, n, lines[0]), lines[1..]);
    }
  }

  lemma {:induction false} OutsideKeeps(m: Mapping, lines: seq<Line>)
    requires !HasSecretsKey(lines)
    ensures Scan(Outside, m, lines) == m
  {
    if lines != [] { OutsideKeeps(m, lines[1..]); }
  }

  lemma {:induction false} OpenedOthers(lines: seq<Line>, name: string, value: string, other: string)
    requires var i := HeaderIndex(lines); i < |lines| && lines[i].BraceHeader?
    requires other != name
    ensures SameAt(Loaded(Put(lines, name, value)), Loaded(lines), other)
        <==> other !in Opened(lines[HeaderIndex(lines) + 1..], name)
  {
    var i := HeaderIndex(lines);
    var below, m: Mapping := lines[i + 1..], map[name := Some(value)];
    OpenedLoads(lines, name, value);
    if HasSecretsKey(below) {
      KeyForgets(InEntry(name), m, Outside, map[], below);
    } else {
      OutsideKeeps(map[], below);
      SameAtStays(InEntry(name), m, map[], below, other);
    }
  }

  lemma {:induction false} OpenedLoads(lines: seq<Line>, name: string, value: string)
    requires var i := HeaderIndex(lines); i < |lines| && lines[i].BraceHeader?
    ensures var below := lines[HeaderIndex(lines) + 1..];
      && Loaded(lines) == Scan(Outside, map[], below)
      && Loaded(Put(lines, name, value)) == Scan(InEntry(name), map[name := Some(value)], below)
  {
    var i := HeaderIndex(lines);
    var front, below := lines[..i], lines[i + 1..];
    var p, m := PlaceAfter(Outside, front), Scan(Outside, map[], front);
    assert lines == front + ([BraceHeader] + below);
    ScanAppend(Outside, map[], front, [BraceHeader] + below);
    ScanCons(p, m, BraceHeader, below);
    PutOpens(lines, name, value);
    ScanAppend(Outside, map[], front, [Header, Entry(name), Encrypted(value)] + below);
    ScanAdded(p, m, name, value, below);
  }

  lemma {:induction false} PutOpens(lines: seq<Line>, name: string, value: string)
    requires var i := HeaderIndex(lines); i < |lines| && lines[i].BraceHeader?
    ensures var i := HeaderIndex(lines);
      Put(lines, name, value) == lines[..i] + ([Header, Entry(name), Encrypted(value)] + lines[i + 1..])
  {}

  // ----- when a write is an update of the mapping -----

  lemma {:induction false} SameEverywhere(a: Mapping, b: Mapping)
    requires forall k :: SameAt(a, b, k)
    ensures a == b
  {
    forall k ensures k in a.Keys <==> k in b.Keys { assert SameAt(a, b, k); }
    assert a.Keys == b.Keys;
    forall k | k in a ensures a[k] == b[k] { assert SameAt(a, b, k); }
  }

  /** No other name is lost with an unseen key or turns up below an opened one. */
  predicate Alone(lines: seq<Line>, name: string) {
    var i := HeaderIndex(lines);
    if i == |lines| then Loaded(lines).Keys <= {name}
    else lines[i].BraceHeader? ==> Opened(lines[i + 1..], name).Keys <= {name}
  }

  /** The exact condition for writes to be updates: for every value, the name gets it and nothing else changes. */
  lemma {:induction false} PutIsUpdateIff(lines: seq<Line>, name: string)
    ensures (forall value :: Loaded(Put(lines, name, value)) == Loaded(lines)[name := Some(value)])
        <==> Lands(lines, name) && Alone(lines, name)
  {
    PutGet(lines, name);
    if Lands(lines, name) && Alone(lines, name) {
      forall value ensures Loaded(Put(lines, name, value)) == Loaded(lines)[name := Some(value)] {
        UpdatesEverywhere(lines, name, value);
      }
    }
    if forall value :: Loaded(Put(lines, name, value)) == Loaded(lines)[name := Some(value)] {
      forall value ensures Holds(Loaded(Put(lines, name, value)), name, value) {
        assert Loaded(Put(lines, name, value)) == Loaded(lines)[name := Some(value)];
      }
      IsAlone(lines, name);
    }
  }

  lemma {:induction false} IsAlone(lines: seq<Line>, name: string)
    requires Loaded(Put(lines, name, "")) == Loaded(lines)[name := Some("")]
    ensures Alone(lines, name)
  {
    var i := HeaderIndex(lines);
    var held: Mapping := if i == |lines| then Loaded(lines) else Opened(lines[i + 1..], name);
    if i == |lines| || lines[i].BraceHeader? {
      forall other | other in held.Keys ensures other in {name} {
        if other != name { PutKeepsOthers(lines, name, "", other); }
      }
    }
  }

  lemma {:induction false} UpdatesEverywhere(lines: seq<Line>, name: string, value: string)
    requires Lands(lines, name) && Alone(lines, name)
    ensures Loaded(Put(lines, name, value)) == Loaded(lines)[name := Some(value)]
  {
    var now, want := Loaded(Put(lines, name, value)), Loaded(lines)[name := Some(value)];
    PutGet(lines, name);
    assert Holds(now, name, value);
    forall k ensures SameAt(now, want, k) {
      if k != name { PutKeepsOthers(lines, name, value, k); }
    }
    SameEverywhere(now, want);
  }

  // ----- texts on which every write is an update -----

  predicate NoKeys(lines: seq<Line>) { forall line :: line in lines ==> !SecretsKey(line) }

  predicate NoEntry(section: seq<Line>, name: string) { Entry(name) !in section }

  predicate Plain(lines: seq<Line>) { forall line :: line in lines ==> line.Blank? || line.Other? }

  predicate OneValue(block: seq<Line>) {
    || block == [] || block[0].Entry?
    || (if block[0].Encrypted? then !HasEncrypted(block[1..]) else OneValue(block[1..]))
  }

  /** Only lines the editor sees, no name twice, and no entry with two values. */
  predicate OneEach(section: seq<Line>) {
    || section == []
    || (!TopLevel(section[0]) && !section[0].OddEntry? && !section[0].OddEncrypted? && OneEach(section[1..])
        && (section[0].Entry? ==> NoEntry(section[1..], section[0].name) && OneValue(section[1..])))
  }

  /**
   * The only secrets key, if any, is one that the editor sees; its section has no other key, no name is
   * repeated in it, and nothing but text stands below an empty mapping.
   */
  predicate Tidy(lines: seq<Line>) {
    var doc := Parse(lines);
    && NoKeys(doc.before) && NoKeys(doc.after) && OneEach(doc.section) && Plain(doc.after[..SectionLength(doc.after)])
  }

  lemma {:induction false} OutsideUntouched(lines: seq<Line>, name: string)
    requires NoKeys(lines)
    ensures Untouched(Outside, lines, name) && !HasSecretsKey(lines)
  {
    if lines != [] {
      assert lines[0] in lines;
      OutsideUntouched(lines[1..], name);
    }
  }

  /** Below the section stands text, up to a key that ends it. */
  lemma {:induction false} TailIsQuiet(p: Place, m: Mapping, after: seq<Line>, name: string)
    requires NoKeys(after) && Plain(after[..SectionLength(after)])
    ensures Untouched(p, after, name) && Scan(p, m, after) == m && !HasSecretsKey(after)
    decreases |after|
  {
    if after != [] {
      assert after[0] in after;
      if EndsSection(after[0]) {
        OutsideUntouched(after[1..], name);
        OutsideKeeps(m, after[1..]);
      } else {
        var k := SectionLength(after);
        assert after[..k][0] == after[0] && after[..k][1..] == after[1..][..k - 1];
        assert after[0] in after[..k];
        TailIsQuiet(p, m, after[1..], name);
      }
    }
  }

  lemma {:induction false} TidyUntouched(p: Place, section: seq<Line>, name: string)
    requires OneEach(section) && NoEntry(section, name) && (p == InEntry(name) ==> !HasEncrypted(section))
    ensures Untouched(p, section, name)
    decreases |section|
  {
    if section != [] {
      assert section[0] in section;
      TidyUntouched(Next(p, section[0]), section[1..], name);
    }
  }

  lemma {:induction false} TidyBlockSpot(block: seq<Line>, name: string)
    requires OneEach(block) && OneValue(block) && HasEncrypted(block) && NoEntry(block, name)
    ensures var spot := BlockSpot(block);
      PlaceAfter(InEntry(name), spot.pre) == InEntry(name) && Untouched(InEntry(name), spot.post, name)
  {
    if block[0].Encrypted? {
      TidyUntouched(InEntry(name), block[1..], name);
    } else {
      var rest := BlockSpot(block[1..]);
      assert ([block[0]] + rest.pre)[1..] == rest.pre;
      TidyBlockSpot(block[1..], name);
    }
  }

  lemma {:induction false} TidySpot(p: Place, section: seq<Line>, name: string)
    requires OneEach(section) && !p.Outside?
    ensures var spot := SectionSpot(section, name);
      PlaceAfter(p, spot.pre) == InEntry(name) && Untouched(InEntry(name), spot.post, name)
    decreases |section|
  {
    var pre := SectionSpot(section, name).pre;
    if section == [] {
      assert pre[1..] == [];
    } else if section[0] != Entry(name) {
      assert pre[1..] == SectionSpot(section[1..], name).pre;
      TidySpot(Next(p, section[0]), section[1..], name);
    } else if HasEncrypted(section[1..]) {
      assert pre[1..] == BlockSpot(section[1..]).pre;
      TidyBlockSpot(section[1..], name);
    } else {
      assert pre[1..] == [];
      TidyUntouched(InEntry(name), section[1..], name);
    }
  }

  lemma {:induction false} TidyLands(lines: seq<Line>, name: string)
    requires Tidy(lines)
    ensures Lands(lines, name)
  {
    var doc := Parse(lines);
    var spot, front := SectionSpot(doc.section, name), doc.before + [Header];
    PlaceAfterAppend(Outside, doc.before, [Header]);
    assert PlaceAfter(Outside, front) == Section by { assert [Header][1..] == []; }
    PlaceAfterAppend(Outside, front, spot.pre);
    TidySpot(Section, doc.section, name);
    UntouchedAppend(InEntry(name), spot.post, doc.after, name);
    TailIsQuiet(PlaceAfter(InEntry(name), spot.post), map[], doc.after, name);
  }

  lemma {:induction false} TidyIsAlone(lines: seq<Line>, name: string)
    requires Tidy(lines)
    ensures Alone(lines, name)
  {
    var i, doc := HeaderIndex(lines), Parse(lines);
    if i == |lines| {
      assert forall line :: line in lines ==> line in doc.before;
      OutsideUntouched(lines, name);
      OutsideKeeps(map[], lines);
    } else if lines[i].BraceHeader? {
      TailIsQuiet(InEntry(name), map[], doc.after, name);
    }
  }

  // ----- a write keeps a text tidy -----

  lemma {:induction false} ReplaceTidy(block: seq<Line>, value: string, name: string)
    requires OneEach(block) && HasEncrypted(block)
    ensures var put := ReplaceEncrypted(block, value);
      && OneEach(put) && HasEncrypted(put) && OneValue(put) == OneValue(block) && NoEntry(put, name) == NoEntry(block, name)
  {
    var put := ReplaceEncrypted(block, value);
    NoEntryCons(block, name);
    NoEntryCons(put, name);
    if !block[0].Encrypted? { ReplaceTidy(block[1..], value, name); }
  }

  lemma {:induction false} NoEntryCons(section: seq<Line>, name: string)
    requires section != []
    ensures NoEntry(section, name) <==> section[0] != Entry(name) && NoEntry(section[1..], name)
  {
    assert section == [section[0]] + section[1..];
  }

  /** What a write does to the lines below another entry. */
  lemma {:induction false} PutBelow(section: seq<Line>, name: string, value: string, other: string)
    requires OneEach(section) && other != name
    ensures var put := PutSection(section, name, value);
      HasEncrypted(put) == HasEncrypted(section) && OneValue(put) == OneValue(section)
      && NoEntry(put, other) == NoEntry(section, other)
  {
    var put := PutSection(section, name, value);
    NoEntryCons(put, other);
    if section == [] {
      NoEntryCons(put[1..], other);
    } else {
      NoEntryCons(section, other);
      if section[0] != Entry(name) {
        PutBelow(section[1..], name, value, other);
      } else if HasEncrypted(section[1..]) {
        ReplaceTidy(section[1..], value, other);
      } else {
        NoEntryCons(put[1..], other);
      }
    }
  }

  lemma {:induction false} PutSectionTidy(section: seq<Line>, name: string, value: string)
    requires OneEach(section)
    ensures OneEach(PutSection(section, name, value))
  {
    var put := PutSection(section, name, value);
    if section == [] {
      assert put[1..] == [Encrypted(value)] && put[1..][1..] == [];
      assert OneEach(put[1..]) && OneValue(put[1..]) && NoEntry(put[1..], name);
    } else if section[0] == Entry(name) {
      PutBlockTidy(section[1..], name, value);
    } else {
      PutSectionTidy(section[1..], name, value);
      if section[0].Entry? { PutBelow(section[1..], name, value, section[0].name); }
    }
  }

  lemma {:induction false} PutBlockTidy(block: seq<Line>, name: string, value: string)
    requires OneEach(block) && OneValue(block) && NoEntry(block, name)
    ensures var put := PutBlock(block, value); OneEach(put) && OneValue(put) && NoEntry(put, name)
  {
    var put := PutBlock(block, value);
    if HasEncrypted(block) {
      ReplaceTidy(block, value, name);
    } else {
      assert put[1..] == block;
      NoEntryCons(put, name);
    }
  }

  lemma {:induction false} PlainBelow(section: seq<Line>, below: seq<Line>)
    requires OneEach(section) && Plain(below)
    ensures OneEach(section + below)
    ensures HasEncrypted(section + below) == HasEncrypted(section) && OneValue(section + below) == OneValue(section)
    decreases |section| + |below|
  {
    if section != [] {
      assert (section + below)[1..] == section[1..] + below;
      PlainBelow(section[1..], below);
    } else {
      assert section + below == below;
      if below != [] {
        assert below[0] in below && below[1..] == [] + below[1..];
        PlainBelow([], below[1..]);
      }
    }
  }

  /** The written text, cut again: what stood below an empty mapping now belongs to the section. */
  lemma {:induction false} ReparsePut(lines: seq<Line>, name: string, value: string)
    ensures var doc := Parse(lines); var k := SectionLength(doc.after);
      Parse(Put(lines, name, value))
      == Doc(doc.before, PutSection(doc.section, name, value) + doc.after[..k], doc.after[k..])
  {
    var doc := Parse(lines);
    var k, put := SectionLength(doc.after), PutSection(doc.section, name, value);
    ParseShape(lines);
    SectionIsClosed(doc.after);
    if HasHeader(lines) {
      assert k == 0 && put + doc.after[..k] == put && doc.after[k..] == doc.after;
      PutStaysClosed(doc.section, name, value);
      ParseClosed(doc.(section := put));
    } else {
      var parsed := Doc(doc.before, put + doc.after[..k], doc.after[k..]);
      Regroup(put, doc.after, k);
      assert put == [Entry(name), Encrypted(value)];
      ParseClosed(parsed);
    }
  }

  lemma {:induction false} PutStaysTidy(lines: seq<Line>, name: string, value: string)
    requires Tidy(lines)
    ensures Tidy(Put(lines, name, value))
  {
    var doc := Parse(lines);
    var k := SectionLength(doc.after);
    ReparsePut(lines, name, value);
    PutSectionTidy(doc.section, name, value);
    PlainBelow(PutSection(doc.section, name, value), doc.after[..k]);
    SectionIsClosed(doc.after);
    assert SectionLength(doc.after[k..]) == 0;
  }

  function PutAll(lines: seq<Line>, writes: seq<(string, string)>): seq<Line>
    decreases |writes|
  {
    if writes == [] then lines else Put(PutAll(lines, writes[..|writes| - 1]), writes[|writes| - 1].0, writes[|writes| - 1].1)
  }

  function Updated(m: Mapping, writes: seq<(string, string)>): Mapping {
    if writes == [] then m else Updated(m, writes[..|writes| - 1])[writes[|writes| - 1].0 := Some(writes[|writes| - 1].1)]
  }

  /** Over any sequence of writes to a tidy text, the loaded mapping is updated write by write and nothing else happens to it. */
  lemma {:induction false} WritesAreUpdates(lines: seq<Line>, writes: seq<(string, string)>)
    requires Tidy(lines)
    ensures Tidy(PutAll(lines, writes)) && Loaded(PutAll(lines, writes)) == Updated(Loaded(lines), writes)
    decreases |writes|
  {
    if writes != [] {
      var last := |writes| - 1;
      var before, name := PutAll(lines, writes[..last]), writes[last].0;
      WritesAreUpdates(lines, writes[..last]);
      PutStaysTidy(before, name, writes[last].1);
      TidyLands(before, name);
      TidyIsAlone(before, name);
      PutIsUpdateIff(before, name);
    }
  }

  // ----- writing what is there -----

  /** A write changes no line exactly when the line it would set already holds the value. */
  lemma {:induction false} PutChangesNothingIff(lines: seq<Line>, name: string, value: string)
    ensures Put(lines, name, value) == lines <==> HasHeader(lines) && Visible(Parse(lines).section, name) == Some(Some(value))
  {
    var spot, found := SpotOf(lines, name), Visible(Parse(lines).section, name);
    PutAtSpot(lines, name, value);
    if HasHeader(lines) {
      SpotOrigin(lines, name);
      if found.Some? && found.value.Some? {
        assert Put(lines, name, value)[|spot.pre|] == Encrypted(value) && lines[|spot.pre|] == Encrypted(found.value.value);
      } else if found.None? {
        assert |Put(lines, name, value)| == |lines| + 2;
      }
    } else {
      ParseShape(lines);
      assert |Put(lines, name, value)| > |lines|;
    }
  }

  lemma {:induction false} TidyHoldsNothing(lines: seq<Line>)
    requires Tidy(lines) && !HasHeader(lines)
    ensures Loaded(lines) == map[]
  {
    var i, doc := HeaderIndex(lines), Parse(lines);
    if i == |lines| {
      assert forall line :: line in lines ==> line in doc.before;
      OutsideUntouched(lines, "");
      OutsideKeeps(map[], lines);
    } else {
      OpenedLoads(lines, "", "");
      TailIsQuiet(Outside, map[], doc.after, "");
    }
  }

  lemma {:induction false} NotVisible(section: seq<Line>, name: string)
    ensures Visible(section, name).None? ==> NoEntry(section, name)
    ensures Visible(section, name) == Some(None) ==>
      var pre := SectionSpot(section, name).pre; pre != [] && pre[|pre| - 1] == Entry(name)
  {
    if section != [] {
      NoEntryCons(section, name);
      NotVisible(section[1..], name);
    }
  }

  lemma {:induction false} HeaderEmpties(before: seq<Line>, rest: seq<Line>)
    ensures Loaded(before + [Header] + rest) == Scan(Section, map[], rest)
  {
    assert before + [Header] + rest == before + ([Header] + rest);
    ScanAppend(Outside, map[], before, [Header] + rest);
    ScanCons(PlaceAfter(Outside, before), Scan(Outside, map[], before), Header, rest);
  }

  lemma {:induction false} TidyWithoutEntry(lines: seq<Line>, name: string)
    requires Tidy(lines) && HasHeader(lines) && Visible(Parse(lines).section, name).None?
    ensures name !in Loaded(lines)
  {
    var doc := Parse(lines);
    ParseShape(lines);
    NotVisible(doc.section, name);
    HeaderEmpties(doc.before, doc.section + doc.after);
    NothingWithout(doc.section, doc.after, name);
  }

  lemma {:induction false} NothingWithout(section: seq<Line>, after: seq<Line>, name: string)
    requires OneEach(section) && NoEntry(section, name) && NoKeys(after) && Plain(after[..SectionLength(after)])
    ensures name !in Scan(Section, map[], section + after)
  {
    TidyUntouched(Section, section, name);
    TailIsQuiet(PlaceAfter(Section, section), map[], after, name);
    UntouchedAppend(Section, section, after, name);
    UntouchedKeeps(Section, map[], section + after, name);
  }

  /** Below a name's entry line, if it counts and nothing overrides it, the name is null. */
  lemma {:induction false} NullAtEntry(pre: seq<Line>, post: seq<Line>, name: string)
    requires pre != [] && pre[|pre| - 1] == Entry(name) && PlaceAfter(Outside, pre) == InEntry(name)
    requires Untouched(InEntry(name), post, name)
    ensures var m := Loaded(pre + post); name in m && m[name] == None
  {
    var front := pre[..|pre| - 1];
    var p, m := PlaceAfter(Outside, front), Scan(Outside, map[], front);
    assert pre == front + [Entry(name)] && [Entry(name)] == [Entry(name)] + [];
    PlaceAfterAppend(Outside, front, [Entry(name)]);
    assert PlaceAfter(p, [Entry(name)]) == Next(p, Entry(name)) by { assert [Entry(name)][1..] == []; }
    ScanAppend(Outside, map[], front, [Entry(name)]);
    ScanCons(p, m, Entry(name), []);
    ScanAppend(Outside, map[], pre, post);
    UntouchedKeeps(InEntry(name), m[name := None], post, name);
  }

  /** On a tidy text the editor finds what loading gives. */
  lemma {:induction false} TidyReadsAlike(lines: seq<Line>, name: string)
    requires Tidy(lines)
    ensures var found := Visible(Parse(lines).section, name);
      if found.None? then name !in Loaded(lines) else name in Loaded(lines) && Loaded(lines)[name] == found.value
  {
    var doc, spot, found := Parse(lines), SpotOf(lines, name), Visible(Parse(lines).section, name);
    TidyLands(lines, name);
    if !HasHeader(lines) {
      ParseShape(lines);
      TidyHoldsNothing(lines);
    } else {
      SpotOrigin(lines, name);
      if found.None? {
        TidyWithoutEntry(lines, name);
      } else if found.value.Some? {
        SpotMatters(spot, name, found.value.value, "");
      } else {
        NotVisible(doc.section, name);
        NullAtEntry(spot.pre, spot.post, name);
      }
    }
  }

  /** On a tidy text, writing a value changes nothing exactly when the name has that value. */
  lemma {:induction false} GetPut(lines: seq<Line>, name: string, value: string)
    requires Tidy(lines)
    ensures Put(lines, name, value) == lines <==> Holds(Loaded(lines), name, value)
  {
    PutChangesNothingIff(lines, name, value);
    TidyReadsAlike(lines, name);
    if !HasHeader(lines) { TidyHoldsNothing(lines); }
  }

  // ----- the second write wins, and writing what is there changes nothing -----

  lemma {:induction false} PutPut(lines: seq<Line>, name: string, first: string, second: string)
    ensures Put(Put(lines, name, first), name, second) == Put(lines, name, second)
  {
    var doc := Parse(lines);
    ParseShape(lines);
    if HasHeader(lines) {
      PutStaysClosed(doc.section, name, first);
      ParseClosed(doc.(section := PutSection(doc.section, name, first)));
      PutPutSection(doc.section, name, first, second);
    } else {
      PutPutFresh(doc, name, first, second);
    }
  }

  lemma {:induction false} ParseClosed(doc: Doc)
    requires NoHeader(doc.before) && Closed(doc.section) && Stops(doc.after)
    ensures Parse(doc.Lines()) == doc
  {
    LinesTail(doc);
    SectionLengthAt(doc.section, doc.after);
  }

  /** In a section just created the first write stands at the top, whatever lines follow it. */
  lemma {:induction false} PutPutFresh(doc: Doc, name: string, first: string, second: string)
    requires NoHeader(doc.before) && doc.section == []
    ensures Written(Parse(Written(doc, name, first)), name, second) == Written(doc, name, second)
  {
    var k := SectionLength(doc.after);
    var below, after := doc.after[..k], doc.after[k..];
    var parsed := Doc(doc.before, [Entry(name), Encrypted(first)] + below, after);
    SectionIsClosed(doc.after);
    Regroup([Entry(name), Encrypted(first)], doc.after, k);
    Regroup([Entry(name), Encrypted(second)], doc.after, k);
    ParseClosed(parsed);
    PutOnTop(name, first, second, below);
  }

  lemma {:induction false} PutOnTop(name: string, first: string, second: string, below: seq<Line>)
    ensures PutSection([Entry(name), Encrypted(first)] + below, name, second) == [Entry(name), Encrypted(second)] + below
  {
    assert ([Entry(name), Encrypted(first)] + below)[1..] == [Encrypted(first)] + below;
    assert ([Encrypted(first)] + below)[1..] == below;
  }

  lemma {:induction false} Regroup(top: seq<Line>, rest: seq<Line>, k: nat)
    requires k <= |rest|
    ensures top + rest[..k] + rest[k..] == top + rest
  {
    assert rest[..k] + rest[k..] == rest;
  }

  lemma {:induction false} PutPutSection(section: seq<Line>, name: string, first: string, second: string)
    ensures PutSection(PutSection(section, name, first), name, second) == PutSection(section, name, second)
  {
    if section != [] {
      if section[0] == Entry(name) {
        if HasEncrypted(section[1..]) { ReplaceTwice(section[1..], first, second); }
      } else {
        PutPutSection(section[1..], name, first, second);
      }
    }
  }

  lemma {:induction false} ReplaceTwice(block: seq<Line>, first: string, second: string)
    requires HasEncrypted(block)
    ensures HasEncrypted(ReplaceEncrypted(block, first))
    ensures ReplaceEncrypted(ReplaceEncrypted(block, first), second) == ReplaceEncrypted(block, second)
  {
    if !block[0].Encrypted? { ReplaceTwice(block[1..], first, second); }
  }

  // ----- nothing outside the section moves -----

  /** The lines before the header stay, the lines after the section stay, and at most two lines are added between. */
  lemma {:induction false} PutStaysInside(lines: seq<Line>, name: string, value: string)
    requires HasHeader(lines)
    ensures var i := HeaderIndex(lines); var end := i + 1 + SectionLength(lines[i + 1..]);
      var put := Put(lines, name, value);
      && |lines| <= |put| <= |lines| + 2 && put[..i + 1] == lines[..i + 1]
      && put[|put| - (|lines| - end)..] == lines[end..]
  {
    var i := HeaderIndex(lines);
    var doc := Parse(lines);
    PutSize(doc.section, name, value);
    CutLines(lines, i, SectionLength(lines[i + 1..]));
    Ends(doc, PutSection(doc.section, name, value));
    Ends(doc, doc.section);
  }

  lemma {:induction false} Ends(doc: Doc, section: seq<Line>)
    ensures var lines := doc.(section := section).Lines();
      && |lines| == |doc.before| + 1 + |section| + |doc.after|
      && lines[..|doc.before| + 1] == doc.before + [Header] && lines[|lines| - |doc.after|..] == doc.after
  {}

  /** Without a header one is added at the end, or the empty mapping is opened in its place. */
  lemma {:induction false} PutOpensSection(lines: seq<Line>, name: string, value: string)
    requires !HasHeader(lines)
    ensures var i, put := HeaderIndex(lines), Put(lines, name, value);
      && put[..i] == lines[..i]
      && (i < |lines| ==> put[i..] == [Header, Entry(name), Encrypted(value)] + lines[i + 1..])
      && (i == |lines| ==>
            || put[i..] == [Header, Entry(name), Encrypted(value)]
            || put[i..] == [Blank, Header, Entry(name), Encrypted(value)])
  {
    var i := HeaderIndex(lines);
    assert lines[..i] <= lines;
  }

  lemma {:induction false} PutSize(section: seq<Line>, name: string, value: string)
    ensures |section| <= |PutSection(section, name, value)| <= |section| + 2
    ensures section == [] ==> |PutSection(section, name, value)| == 2
  {
    if section != [] {
      if section[0] == Entry(name) {
        ReplaceSize(section[1..], value);
      } else {
        PutSize(section[1..], name, value);
      }
    }
  }

  lemma {:induction false} ReplaceSize(block: seq<Line>, value: string)
    ensures |ReplaceEncrypted(block, value)| == |block|
  {
    if block != [] { ReplaceSize(block[1..], value); }
  }
}
