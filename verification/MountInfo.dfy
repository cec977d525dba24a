/** Parsing /proc/[pid]/mountinfo, and printing it as section 5 of the proc manual describes. */
module MountInfo {
  import opened Wrappers
  import opened Strings

  datatype Entry = Entry(
    id: int,
    parentId: int,
    majorMinor: string,
    root: string,
    mountPoint: string,
    mountOptions: seq<string>,
    optionalFields: seq<string>,
    fsType: string,
    source: string,
    superOptions: seq<string>)

  const MIN_FIELDS := 10
  const INT_MIN := -0x8000_0000_0000_0000
  const INT_MAX := 0x7FFF_FFFF_FFFF_FFFF

  // ----- decimal numbers

  predicate IsDigit(c: char) {
    '0' <= c <= '9'
  }

  function Digits(s: string): Option<nat> {
    if s == "" then Some(0)
    else if !IsDigit(s[|s| - 1]) then None
    else
      var high := Digits(s[..|s| - 1]);
      if high.None? then None else Some(10 * high.value + (s[|s| - 1] as int - '0' as int))
  }

  /** strconv.Atoi on a 64-bit machine. */
  function Atoi(s: string): Option<int> {
    var digits := if s != "" && (s[0] == '+' || s[0] == '-') then s[1..] else s;
    if digits == "" || Digits(digits).None? then None
    else
      var n: int := Digits(digits).value;
      var n := if s[0] == '-' then -n else n;
      if INT_MIN <= n <= INT_MAX then Some(n) else None
  }

  function Decimal(n: nat): string {
    (if n < 10 then "" else Decimal(n / 10)) + [('0' as int + n % 10) as char]
  }

  function Itoa(n: int): string {
    if n < 0 then "-" + Decimal(-n) else Decimal(n)
  }

  lemma {:induction false} DigitsOfDecimal(n: nat)
    ensures Digits(Decimal(n)) == Some(n)
    ensures Decimal(n) != "" && forall i | 0 <= i < |Decimal(n)| :: IsDigit(Decimal(n)[i])
  {
    var d := Decimal(n);
    if n < 10 {
      assert d[..|d| - 1] == "";
    } else {
      DigitsOfDecimal(n / 10);
      assert d[..|d| - 1] == Decimal(n / 10);
    }
  }

  lemma AtoiOfDigits(d: string, n: nat)
    requires Digits(d) == Some(n) && d != "" && forall i | 0 <= i < |d| :: IsDigit(d[i])
    ensures Atoi(d) == if n <= INT_MAX then Some(n) else None
    ensures Atoi("-" + d) == var v: int := n; if -v >= INT_MIN then Some(-v) else None
    ensures Word(d) && Word("-" + d)
  {
  }

  lemma AtoiItoa(n: int)
    requires INT_MIN <= n <= INT_MAX
    ensures Atoi(Itoa(n)) == Some(n) && Word(Itoa(n))
  {
    var m := if n < 0 then -n else n;
    DigitsOfDecimal(m);
    AtoiOfDigits(Decimal(m), m);
  }

  // ----- one line

  /** Fields that make up an entry: six, any number of optional ones, "-", at least three. */
  predicate IsEntry(fields: seq<string>, k: nat) {
    && 6 + k + 1 + 3 <= |fields| && fields[6 + k] == "-" && "-" !in fields[6..6 + k]
    && Atoi(fields[0]).Some? && Atoi(fields[1]).Some?
  }

  function EntryOf(fields: seq<string>, k: nat): Entry
    requires IsEntry(fields, k)
  {
    Entry(Atoi(fields[0]).value, Atoi(fields[1]).value, fields[2], fields[3], fields[4], Split(fields[5], ","),
          fields[6..6 + k], fields[7 + k], fields[8 + k], Split(fields[9 + k], ","))
  }

  /** What a line says, if it has the shape of an entry. The shape determines `k`, see `EntryShape`. */
  ghost function LineMeaning(line: string): Option<Entry> {
    if exists k: nat :: IsEntry(Fields(line), k) then
      var k: nat :| IsEntry(Fields(line), k);
      Some(EntryOf(Fields(line), k))
    else None
  }

  /** Accepts a line exactly if it has the shape of an entry; nothing is read beyond its fields. */
  method ParseLine(line: string) returns (r: Option<Entry>)
    ensures r == LineMeaning(line)
  {
    var fields := Fields(line);
    if |fields| < MIN_FIELDS {
      return None;
    }
    var id, parentId := Atoi(fields[0]), Atoi(fields[1]);
    if id.None? || parentId.None? {
      return None;
    }
    var optionalFields := [];
    var i := 6;
    while i < |fields| && fields[i] != "-"
      invariant 6 <= i <= |fields| && optionalFields == fields[6..i] && "-" !in optionalFields
    {
      optionalFields := optionalFields + [fields[i]];
      i := i + 1;
    }
    ghost var sep := i;
    i := i + 1;
    if |fields| - i < 3 {
      forall k ensures !IsEntry(fields, k) {
        EntryShape(fields, k, sep - 6);
      }
      return None;
    }
    assert IsEntry(fields, sep - 6);
    forall k ensures IsEntry(fields, k) ==> k == sep - 6 {
      EntryShape(fields, k, sep - 6);
    }
    return Some(Entry(id.value, parentId.value, fields[2], fields[3], fields[4], Split(fields[5], ","),
                      optionalFields, fields[i], fields[i + 1], Split(fields[i + 2], ",")));
  }

  /** The first "-" from the seventh field on is the separator. */
  lemma EntryShape(fields: seq<string>, k: nat, j: nat)
    requires 6 + j <= |fields| && "-" !in fields[6..6 + j] && (6 + j < |fields| ==> fields[6 + j] == "-")
    ensures IsEntry(fields, k) ==> k == j
  {
    forall i | 6 <= i < 6 + j ensures fields[i] != "-" {
      assert fields[6..6 + j][i - 6] == fields[i];
    }
    if IsEntry(fields, k) {
      forall i | 6 <= i < 6 + k ensures fields[i] != "-" {
        assert fields[6..6 + k][i - 6] == fields[i];
      }
    }
  }

  // ----- printing

  function Tokens(e: Entry): seq<string> {
    [Itoa(e.id), Itoa(e.parentId), e.majorMinor, e.root, e.mountPoint, Join(e.mountOptions, ",")]
    + e.optionalFields + ["-", e.fsType, e.source, Join(e.superOptions, ",")]
  }

  predicate Options(options: seq<string>) {
    options != [] && Word(Join(options, ",")) && forall o | o in options :: ',' !in o
  }

  /** What the kernel can print: words everywhere, no optional field that looks like the separator. */
  predicate Printable(e: Entry) {
    && INT_MIN <= e.id <= INT_MAX && INT_MIN <= e.parentId <= INT_MAX
    && Word(e.majorMinor) && Word(e.root) && Word(e.mountPoint) && Word(e.fsType) && Word(e.source)
    && Options(e.mountOptions) && Options(e.superOptions)
    && "-" !in e.optionalFields && forall i | 0 <= i < |e.optionalFields| :: Word(e.optionalFields[i])
  }

  function Print(e: Entry): string {
    Join(Tokens(e), " ")
  }

  lemma TokensAreWords(e: Entry)
    requires Printable(e)
    ensures forall i | 0 <= i < |Tokens(e)| :: Word(Tokens(e)[i])
  {
    AtoiItoa(e.id);
    AtoiItoa(e.parentId);
    var dash := "-";
    assert Word(dash);
  }

  lemma TokensAt(e: Entry)
    ensures var t, k := Tokens(e), |e.optionalFields|;
      && |t| == 10 + k && t[..6] == [Itoa(e.id), Itoa(e.parentId), e.majorMinor, e.root, e.mountPoint, Join(e.mountOptions, ",")]
      && t[6..6 + k] == e.optionalFields && t[6 + k..] == ["-", e.fsType, e.source, Join(e.superOptions, ",")]
  {
  }

  lemma TailAt(t: seq<string>, k: nat, a: string, b: string, c: string, d: string)
    requires k <= |t| && t[k..] == [a, b, c, d]
    ensures |t| == k + 4 && t[k] == a && t[k + 1] == b && t[k + 2] == c && t[k + 3] == d
  {
    assert t[k..][0] == a && t[k..][1] == b && t[k..][2] == c && t[k..][3] == d;
  }

  lemma TokensAreEntry(e: Entry)
    requires Printable(e)
    ensures IsEntry(Tokens(e), |e.optionalFields|) && EntryOf(Tokens(e), |e.optionalFields|) == e
  {
    var t, k := Tokens(e), |e.optionalFields|;
    AtoiItoa(e.id);
    AtoiItoa(e.parentId);
    SplitJoin(e.mountOptions, ',');
    SplitJoin(e.superOptions, ',');
    TokensAt(e);
    TailAt(t, 6 + k, "-", e.fsType, e.source, Join(e.superOptions, ","));
    assert forall i | 0 <= i < 6 :: t[i] == t[..6][i];
  }

  /** Reading a printed line gives the entry back. */
  lemma LineRoundTrip(e: Entry)
    requires Printable(e)
    ensures LineMeaning(Print(e)) == Some(e)
  {
    TokensAreWords(e);
    FieldsJoin(Tokens(e));
    TokensAreEntry(e);
    forall k ensures IsEntry(Tokens(e), k) ==> k == |e.optionalFields| {
      EntryShape(Tokens(e), k, |e.optionalFields|);
    }
  }

  // ----- the whole file

  ghost function Added(init: Option<seq<Entry>>, line: string): Option<seq<Entry>> {
    if init.None? || line == "" then init
    else if LineMeaning(line).None? then None
    else Some(init.value + [LineMeaning(line).value])
  }

  /** What the lines say: one entry each, in order, but for empty lines; nothing if one of them is bad. */
  ghost function Meaning(lines: seq<string>): Option<seq<Entry>> {
    if lines == [] then Some([])
    else Added(Meaning(lines[..|lines| - 1]), lines[|lines| - 1])
  }

  lemma {:induction false} BadPrefix(lines: seq<string>, i: nat)
    requires i <= |lines| && Meaning(lines[..i]).None?
    ensures Meaning(lines).None?
    decreases |lines|
  {
    if i == |lines| {
      assert lines[..i] == lines;
    } else {
      assert lines[..|lines| - 1][..i] == lines[..i];
      BadPrefix(lines[..|lines| - 1], i);
    }
  }

  method ParseMountInfo(content: string) returns (infos: Option<seq<Entry>>)
    ensures infos == Meaning(Split(content, "\n"))
  {
    var lines := Split(content, "\n");
    var read: seq<Entry> := [];
    for n := 0 to |lines|
      invariant Meaning(lines[..n]) == Some(read)
    {
      assert lines[..n + 1][..n] == lines[..n];
      if lines[n] != "" {
        var info := ParseLine(lines[n]);
        if info.None? {
          BadPrefix(lines, n + 1);
          return None;
        }
        read := read + [info.value];
      }
    }
    assert lines[..|lines|] == lines;
    return Some(read);
  }

  /** The file the kernel prints: each entry on a line of its own. */
  function PrintAll(es: seq<Entry>): seq<string> {
    if es == [] then [""] else [Print(es[0])] + PrintAll(es[1..])
  }

  lemma {:induction false} JoinedWords(words: seq<string>)
    requires forall i | 0 <= i < |words| :: Word(words[i])
    ensures '\n' !in Join(words, " ")
    ensures words != [] ==> Join(words, " ") != ""
  {
    if words != [] {
      assert '\n' !in words[0] by {
        assert forall i | 0 <= i < |words[0]| :: !IsSpace(words[0][i]);
      }
      if |words| > 1 {
        JoinedWords(words[1..]);
      }
    }
  }

  lemma AddedAssociates(a: seq<Entry>, b: Option<seq<Entry>>, line: string)
    requires Added(b, line).Some?
    ensures b.Some? && Added(Some(a + b.value), line) == Some(a + Added(b, line).value)
  {
    if line != "" {
      assert a + (b.value + [LineMeaning(line).value]) == (a + b.value) + [LineMeaning(line).value];
    }
  }

  lemma {:induction false} MeaningAppend(lines: seq<string>, more: seq<string>)
    requires Meaning(lines).Some? && Meaning(more).Some?
    ensures Meaning(lines + more) == Some(Meaning(lines).value + Meaning(more).value)
    decreases |more|
  {
    if more == [] {
      assert lines + more == lines;
      assert Meaning(lines).value + [] == Meaning(lines).value;
    } else {
      var all, init := lines + more, more[..|more| - 1];
      assert all[..|all| - 1] == lines + init && all[|all| - 1] == more[|more| - 1];
      AddedAssociates(Meaning(lines).value, Meaning(init), more[|more| - 1]);
      MeaningAppend(lines, init);
    }
  }

  lemma PrintedLine(e: Entry)
    requires Printable(e)
    ensures Meaning([Print(e)]) == Some([e]) && '\n' !in Print(e)
  {
    TokensAreWords(e);
    JoinedWords(Tokens(e));
    LineRoundTrip(e);
    assert [Print(e)][..0] == [];
    assert Meaning([]) == Some([]);
    assert [] + [e] == [e];
  }

  lemma {:induction false} PrintedLines(es: seq<Entry>)
    requires forall i | 0 <= i < |es| :: Printable(es[i])
    ensures Meaning(PrintAll(es)) == Some(es)
  {
    if es == [] {
      assert PrintAll(es)[..0] == [];
    } else {
      PrintedLine(es[0]);
      PrintedLines(es[1..]);
      MeaningAppend([Print(es[0])], PrintAll(es[1..]));
      assert es == [es[0]] + es[1..];
    }
  }

  lemma {:induction false} LinesStayLines(es: seq<Entry>)
    requires forall i | 0 <= i < |es| :: Printable(es[i])
    ensures forall p | p in PrintAll(es) :: '\n' !in p
  {
    if es != [] {
      PrintedLine(es[0]);
      LinesStayLines(es[1..]);
    }
  }

  /** Parsing what the kernel prints for any list of entries gives exactly that list. */
  lemma FileRoundTrip(es: seq<Entry>)
    requires forall i | 0 <= i < |es| :: Printable(es[i])
    ensures Meaning(Split(Join(PrintAll(es), "\n"), "\n")) == Some(es)
  {
    PrintedLines(es);
    LinesStayLines(es);
    SplitJoin(PrintAll(es), '\n');
  }
}
