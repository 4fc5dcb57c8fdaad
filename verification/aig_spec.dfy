/** What `AIG.from_file` (verification/aig.py) computes from the lines of
    an AIGER ASCII file, stated as functions of the lines: the header, the
    input, latch, output and AND records, the map from variable indices to
    signals, the symbol table and the comments. */
module AigSpec {
  import opened Wrappers
  import opened AigText
  import opened AigLiteral

  /** The four record sections, in file order. */
  datatype Section = Inputs | Latches | Outputs | Ands

  /** The class of a signal and the literals it holds besides its own:
      `Input`, `Latch` with its successor, `Output`, `And` with its two
      operands. */
  datatype Role = InputRole | LatchRole(successor: Lit) | OutputRole | AndRole(left: Lit, right: Lit)

  /** A signal as the record lines define it, before any naming. */
  datatype Record = Record(role: Role, literal: Lit)

  /** A signal with the name the symbol table gave it, if any. */
  datatype SignalValue = SignalValue(role: Role, literal: Lit, name: Option<string>)

  /** Where `variables` points: the signal at a position of one of the
      lists. The lists hold the very objects the map points to. */
  datatype VarRef = InputRef(i: nat) | LatchRef(i: nat) | AndRef(i: nat)

  /** The exception `from_file` raises, with the line at fault (0 is the
      header): unpacking into a wrong number of names (`ValueError`), a
      header not starting with `aag` (`AssertionError`), text `int` does not
      accept (`ValueError`), a symbol index outside its list
      (`IndexError`). */
  datatype DecodeError =
    | WrongFieldCount(line: nat)
    | NotAag
    | NotANumber(line: nat)
    | IndexOutOfRange(line: nat)

  /** `M I L O A`. */
  datatype Header = Header(maxVar: int, inputs: int, latches: int, outputs: int, ands: int)

  /** The decoded file. */
  datatype AigValue = AigValue(
    inputs: seq<SignalValue>,
    latches: seq<SignalValue>,
    outputs: seq<SignalValue>,
    ands: seq<SignalValue>,
    variables: map<nat, VarRef>,
    comments: seq<string>)

  /** `readline`: the next line, or the empty string past the end. */
  function LineAt(lines: seq<string>, k: nat): string
  {
    if k < |lines| then lines[k] else ""
  }

  /** `range(n)` runs `n` times, and not at all for a negative `n`. */
  function Count(n: int): nat
  {
    if n < 0 then 0 else n
  }

  /** `int` on each field; `None` when one of them raises. */
  function ParseAll(fields: seq<string>): (r: Option<seq<int>>)
    ensures r.Some? <==> forall j :: 0 <= j < |fields| ==> ParseInt(fields[j]).Some?
    ensures r.Some? ==> |r.value| == |fields|
    ensures r.Some? ==> forall j :: 0 <= j < |fields| ==> ParseInt(fields[j]) == Some(r.value[j])
  {
    if forall j :: 0 <= j < |fields| ==> ParseInt(fields[j]).Some? then
      Some(seq(|fields|, j requires 0 <= j < |fields| && ParseInt(fields[j]).Some? => ParseInt(fields[j]).value))
    else None
  }

  function Min(a: nat, b: nat): nat
  {
    if a < b then a else b
  }

  /** `x1, ..., xn = map(f, fields)` with `f` raising where `int` does:
      unpacking pulls at most `n + 1` values, converting each, and only
      then complains about the count. */
  function Unpack(fields: seq<string>, n: nat, line: nat): (r: Result<seq<int>, DecodeError>)
    ensures r.Ok? <==> |fields| == n && ParseAll(fields).Some?
    ensures r.Ok? ==> |r.value| == n
    ensures r.Ok? ==> r.value == ParseAll(fields).value
    ensures r.Err? && ParseAll(fields[..Min(|fields|, n + 1)]).Some? ==> r.error == WrongFieldCount(line)
    ensures r.Err? && ParseAll(fields[..Min(|fields|, n + 1)]).None? ==> r.error == NotANumber(line)
  {
    assert |fields| == n ==> fields[..Min(|fields|, n + 1)] == fields;
    match ParseAll(fields[..Min(|fields|, n + 1)])
    case None => Err(NotANumber(line))
    case Some(vs) => if |fields| != n then Err(WrongFieldCount(line)) else Ok(vs)
  }

  /** The header line: `magic, *numbers = line.split()`, the assertion on
      the magic word, and the five numbers. */
  function ParseHeader(line: string): (r: Result<Header, DecodeError>)
    ensures r.Ok? ==> |Split(line)| == 6 && Split(line)[0] == "aag"
    ensures r.Ok? ==> forall j :: 1 <= j < 6 ==> ParseInt(Split(line)[j]).Some?
    ensures (|Split(line)| == 6 && Split(line)[0] == "aag" &&
             forall j :: 1 <= j < 6 ==> ParseInt(Split(line)[j]).Some?) ==> r.Ok?
  {
    var fields := Split(line);
    if |fields| == 0 then Err(WrongFieldCount(0))
    else if fields[0] != "aag" then Err(NotAag)
    else
      TailParses(fields);
      match Unpack(fields[1..], 5, 0)
      case Err(e) => Err(e)
      case Ok(vs) => Ok(Header(vs[0], vs[1], vs[2], vs[3], vs[4]))
  }

  /** The numbers after the magic word read exactly when each of them does. */
  lemma TailParses(fields: seq<string>)
    requires |fields| > 0
    ensures ParseAll(fields[1..]).Some? <==> forall j :: 1 <= j < |fields| ==> ParseInt(fields[j]).Some?
  {
    forall j | 1 <= j < |fields|
      ensures fields[1..][j - 1] == fields[j]
    {
    }
  }

  /** One record line of a section: a single literal for inputs and
      outputs (`int` strips the line itself), a literal and its successor
      for latches, a literal and two operands for AND gates. */
  function ParseRecord(sec: Section, text: string, line: nat): (r: Result<Record, DecodeError>)
    ensures r.Ok? ==> SectionOf(r.value.role) == sec
  {
    // The class of the section; latches and gates read their operands below.
    var role := match sec
      case Inputs => InputRole
      case Outputs => OutputRole
      case Latches => LatchRole(Literal(0))
      case Ands => AndRole(Literal(0), Literal(0));
    assert SectionOf(role) == sec;
    match sec
    case Latches => ParseLatch(text, line)
    case Ands => ParseAnd(text, line)
    case _ => ParseSingle(role, text, line)
  }

  function ParseSingle(role: Role, text: string, line: nat): (r: Result<Record, DecodeError>)
    ensures r.Ok? ==> r.value.role == role
  {
    match ParseInt(Strip(text))
    case None => Err(NotANumber(line))
    case Some(v) => Ok(Record(role, Literal(v)))
  }

  function ParseLatch(text: string, line: nat): (r: Result<Record, DecodeError>)
    ensures r.Ok? ==> r.value.role.LatchRole?
  {
    var u := Unpack(Split(text), 2, line);
    if u.Err? then Err(u.error)
    else Ok(Record(LatchRole(Literal(u.value[1])), Literal(u.value[0])))
  }

  function ParseAnd(text: string, line: nat): (r: Result<Record, DecodeError>)
    ensures r.Ok? ==> r.value.role.AndRole?
  {
    var u := Unpack(Split(text), 3, line);
    if u.Err? then Err(u.error)
    else Ok(Record(AndRole(Literal(u.value[1]), Literal(u.value[2])), Literal(u.value[0])))
  }

  function SectionOf(role: Role): Section
  {
    match role
    case InputRole => Inputs
    case LatchRole(_) => Latches
    case OutputRole => Outputs
    case AndRole(_, _) => Ands
  }

  /** A section's record parser. */
  type Parser = (string, nat) -> Result<Record, DecodeError>

  function RecordParser(sec: Section): Parser
  {
    (text: string, line: nat) => ParseRecord(sec, text, line)
  }

  /** The record parsers of the four sections. */
  datatype Parsers = Parsers(inputs: Parser, latches: Parser, outputs: Parser, ands: Parser)

  function RecordParsers(): Parsers
  {
    Parsers(RecordParser(Inputs), RecordParser(Latches), RecordParser(Outputs), RecordParser(Ands))
  }

  /** The first `n` records of a section whose lines start at `start`, or
      the error of the first line that fails. */
  function ReadRecords(lines: seq<string>, parse: Parser, start: nat, n: nat): (r: Result<seq<Record>, DecodeError>)
    ensures r.Ok? ==> |r.value| == n
    decreases n
  {
    if n == 0 then Ok([])
    else
      match ReadRecords(lines, parse, start, n - 1)
      case Err(e) => Err(e)
      case Ok(rs) =>
        match parse(LineAt(lines, start + n - 1), start + n - 1)
        case Err(e) => Err(e)
        case Ok(rec) => Ok(rs + [rec])
  }

  /** A line that fails ends the section with its error. */
  lemma RecordsFail(lines: seq<string>, parse: Parser, start: nat, i: nat, n: nat, e: DecodeError)
    requires i < n && ReadRecords(lines, parse, start, i).Ok?
    requires parse(LineAt(lines, start + i), start + i) == Err(e)
    ensures ReadRecords(lines, parse, start, n) == Err(e)
  {
    assert start + (i + 1) - 1 == start + i;
    assert ReadRecords(lines, parse, start, i + 1) == Err(e);
    ErrorPersists(lines, parse, start, i + 1, n);
  }

  /** Once a line has failed, the section fails with that line's
      error however many lines it has. */
  lemma {:induction false} ErrorPersists(lines: seq<string>, parse: Parser, start: nat, k: nat, n: nat)
    requires k <= n && ReadRecords(lines, parse, start, k).Err?
    ensures ReadRecords(lines, parse, start, n) == ReadRecords(lines, parse, start, k)
    decreases n - k
  {
    if k < n {
      assert ReadRecords(lines, parse, start, k + 1) == ReadRecords(lines, parse, start, k);
      ErrorPersists(lines, parse, start, k + 1, n);
    }
  }

  /** The reference to position `j` of a section entered into
      `variables`. */
  function RefOf(sec: Section, j: nat): VarRef
    requires sec != Outputs
  {
    match sec
    case Inputs => InputRef(j)
    case Latches => LatchRef(j)
    case Ands => AndRef(j)
  }

  /** `variables[abs(x.literal)] = x` for the records of a section, in
      order, starting from `m`. */
  function EnterAll(m: map<nat, VarRef>, rs: seq<Record>, sec: Section): map<nat, VarRef>
    requires sec != Outputs
  {
    EnterFirst(m, rs, sec, |rs|)
  }

  /** The map after the first `n` records. */
  function EnterFirst(m: map<nat, VarRef>, rs: seq<Record>, sec: Section, n: nat): map<nat, VarRef>
    requires sec != Outputs && n <= |rs|
  {
    if n == 0 then m
    else EnterFirst(m, rs, sec, n - 1)[Key(rs[n - 1].literal) := RefOf(sec, n - 1)]
  }

  /** Only the first `n` records matter. */
  lemma {:induction false} EnterFirstPrefix(m: map<nat, VarRef>, rs: seq<Record>, more: seq<Record>, sec: Section, n: nat)
    requires sec != Outputs && n <= |rs|
    ensures EnterFirst(m, rs + more, sec, n) == EnterFirst(m, rs, sec, n)
  {
    if n > 0 {
      EnterFirstPrefix(m, rs, more, sec, n - 1);
      assert (rs + more)[n - 1] == rs[n - 1];
    }
  }

  /** The map after the input, latch and AND sections. */
  function Variables(ins: seq<Record>, lats: seq<Record>, ands: seq<Record>): map<nat, VarRef>
  {
    EnterAll(EnterAll(EnterAll(map[], ins, Inputs), lats, Latches), ands, Ands)
  }

  /** The names of the inputs, latches and outputs. */
  datatype Names = Names(inputs: seq<Option<string>>, latches: seq<Option<string>>, outputs: seq<Option<string>>)

  function Unnamed(n: nat): (ns: seq<Option<string>>)
    ensures |ns| == n && forall j :: 0 <= j < n ==> ns[j] == None
  {
    seq(n, _ => None)
  }

  /** Python's list index: negative positions count from the end. */
  function Wrap(index: int, len: nat): (r: Option<nat>)
    ensures r.Some? <==> -(len as int) <= index < len
    ensures r.Some? ==> r.value < len && (r.value == index || r.value == index + len)
  {
    if 0 <= index < len then Some(index)
    else if -(len as int) <= index < 0 then Some(index + len)
    else None
  }

  /** The lists a symbol line can name. */
  datatype NamedList = InputList | LatchList | OutputList

  /** `xs[index].name = name` on the list a symbol line selects; `None`
      when the index is outside the list. */
  function Rename(names: Names, list: NamedList, index: int, name: string): (r: Option<Names>)
  {
    match list
    case InputList =>
      (match Wrap(index, |names.inputs|)
       case None => None
       case Some(w) => Some(names.(inputs := names.inputs[w := Some(name)])))
    case LatchList =>
      (match Wrap(index, |names.latches|)
       case None => None
       case Some(w) => Some(names.(latches := names.latches[w := Some(name)])))
    case OutputList =>
      (match Wrap(index, |names.outputs|)
       case None => None
       case Some(w) => Some(names.(outputs := names.outputs[w := Some(name)])))
  }

  /** What one line after the records says: the end of the symbol table,
      a name for a position of a list (the position as `int` reads it,
      `None` where `int` raises), or nothing. */
  datatype SymbolLine = CommentStart | Naming(list: NamedList, position: Option<int>, name: string) | Ignored

  /** The tests and the splitting of the symbol loop's body: a line that
      strips to `c`, a line starting with `i`, `l` or `o` split at its
      first space, anything else. Iteration over a file never yields an
      empty line; one would be ignored here. */
  function ClassifyLine(line: string): SymbolLine
  {
    if Strip(line) == "c" then CommentStart
    else if |line| > 0 && (line[0] == 'i' || line[0] == 'l' || line[0] == 'o') then
      var (position, _, name) := Partition(line[1..]);
      var list := if line[0] == 'i' then InputList else if line[0] == 'l' then LatchList else OutputList;
      Naming(list, ParseInt(position), Strip(name))
    else Ignored
  }

  type Classifier = string -> SymbolLine

  /** The `for line in file` loop from line `j` on, with the names so far:
      the final names and the comment lines, which follow the line that
      ends the table. */
  function Symbols(lines: seq<string>, classify: Classifier, j: nat, names: Names): (r: Result<(Names, seq<string>), DecodeError>)
    ensures r.Ok? ==> |r.value.0.inputs| == |names.inputs| && |r.value.0.latches| == |names.latches|
    ensures r.Ok? ==> |r.value.0.outputs| == |names.outputs|
    decreases |lines| - j
  {
    if j >= |lines| then Ok((names, []))
    else
      match classify(lines[j])
      case CommentStart => Ok((names, lines[j + 1..]))
      case Ignored => Symbols(lines, classify, j + 1, names)
      case Naming(list, position, name) =>
        match position
        case None => Err(NotANumber(j))
        case Some(index) =>
          match Rename(names, list, index, name)
          case None => Err(IndexOutOfRange(j))
          case Some(names') => Symbols(lines, classify, j + 1, names')
  }

  /** Records with their names. */
  function Named(rs: seq<Record>, ns: seq<Option<string>>): (ss: seq<SignalValue>)
    requires |rs| == |ns|
    ensures |ss| == |rs|
    ensures forall j :: 0 <= j < |rs| ==> ss[j] == SignalValue(rs[j].role, rs[j].literal, ns[j])
  {
    seq(|rs|, j requires 0 <= j < |rs| => SignalValue(rs[j].role, rs[j].literal, ns[j]))
  }

  /** The line where the symbol table starts. */
  function SymbolStart(h: Header): nat
  {
    1 + Count(h.inputs) + Count(h.latches) + Count(h.outputs) + Count(h.ands)
  }

  /** The four record sections of a file with header `h`. */
  datatype Sections = Sections(inputs: seq<Record>, latches: seq<Record>, outputs: seq<Record>, ands: seq<Record>)

  function ReadSections(lines: seq<string>, ps: Parsers, h: Header): (r: Result<Sections, DecodeError>)
    ensures r.Ok? ==> |r.value.inputs| == Count(h.inputs) && |r.value.latches| == Count(h.latches)
    ensures r.Ok? ==> |r.value.outputs| == Count(h.outputs) && |r.value.ands| == Count(h.ands)
  {
    var i, l, o, a := Count(h.inputs), Count(h.latches), Count(h.outputs), Count(h.ands);
    match ReadRecords(lines, ps.inputs, 1, i)
    case Err(e) => Err(e)
    case Ok(ins) =>
      match ReadRecords(lines, ps.latches, 1 + i, l)
      case Err(e) => Err(e)
      case Ok(lats) =>
        match ReadRecords(lines, ps.outputs, 1 + i + l, o)
        case Err(e) => Err(e)
        case Ok(outs) =>
          match ReadRecords(lines, ps.ands, 1 + i + l + o, a)
          case Err(e) => Err(e)
          case Ok(ands) => Ok(Sections(ins, lats, outs, ands))
  }

  /** The sections of a file whose four sections all read. */
  lemma SectionsRead(lines: seq<string>, ps: Parsers, h: Header, ins: seq<Record>, lats: seq<Record>, outs: seq<Record>, ands: seq<Record>)
    requires ReadRecords(lines, ps.inputs, 1, Count(h.inputs)) == Ok(ins)
    requires ReadRecords(lines, ps.latches, 1 + Count(h.inputs), Count(h.latches)) == Ok(lats)
    requires ReadRecords(lines, ps.outputs, 1 + Count(h.inputs) + Count(h.latches), Count(h.outputs)) == Ok(outs)
    requires ReadRecords(lines, ps.ands, 1 + Count(h.inputs) + Count(h.latches) + Count(h.outputs), Count(h.ands)) == Ok(ands)
    ensures ReadSections(lines, ps, h) == Ok(Sections(ins, lats, outs, ands))
  {
  }

  /** The first section that fails to read gives the error of all four. */
  lemma InputsFail(lines: seq<string>, ps: Parsers, h: Header, e: DecodeError)
    requires ReadRecords(lines, ps.inputs, 1, Count(h.inputs)) == Err(e)
    ensures ReadSections(lines, ps, h) == Err(e)
  {
  }

  lemma LatchesFail(lines: seq<string>, ps: Parsers, h: Header, ins: seq<Record>, e: DecodeError)
    requires ReadRecords(lines, ps.inputs, 1, Count(h.inputs)) == Ok(ins)
    requires ReadRecords(lines, ps.latches, 1 + Count(h.inputs), Count(h.latches)) == Err(e)
    ensures ReadSections(lines, ps, h) == Err(e)
  {
  }

  lemma OutputsFail(lines: seq<string>, ps: Parsers, h: Header, ins: seq<Record>, lats: seq<Record>, e: DecodeError)
    requires ReadRecords(lines, ps.inputs, 1, Count(h.inputs)) == Ok(ins)
    requires ReadRecords(lines, ps.latches, 1 + Count(h.inputs), Count(h.latches)) == Ok(lats)
    requires ReadRecords(lines, ps.outputs, 1 + Count(h.inputs) + Count(h.latches), Count(h.outputs)) == Err(e)
    ensures ReadSections(lines, ps, h) == Err(e)
  {
  }

  lemma AndsFail(lines: seq<string>, ps: Parsers, h: Header, ins: seq<Record>, lats: seq<Record>, outs: seq<Record>, e: DecodeError)
    requires ReadRecords(lines, ps.inputs, 1, Count(h.inputs)) == Ok(ins)
    requires ReadRecords(lines, ps.latches, 1 + Count(h.inputs), Count(h.latches)) == Ok(lats)
    requires ReadRecords(lines, ps.outputs, 1 + Count(h.inputs) + Count(h.latches), Count(h.outputs)) == Ok(outs)
    requires ReadRecords(lines, ps.ands, 1 + Count(h.inputs) + Count(h.latches) + Count(h.outputs), Count(h.ands)) == Err(e)
    ensures ReadSections(lines, ps, h) == Err(e)
  {
  }

  /** `AIG.from_file` on the lines of a file. */
  function Decode(lines: seq<string>): (r: Result<AigValue, DecodeError>)
  {
    DecodeWith(lines, AigerReaders())
  }

  /** The readers of the parts of a file: the header line, the record
      lines of each section, the lines after the records. */
  datatype Readers = Readers(header: string -> Result<Header, DecodeError>, records: Parsers, classify: Classifier)

  /** The readers of the AIGER ASCII format. */
  function AigerReaders(): Readers
  {
    Readers(ParseHeader, RecordParsers(), ClassifyLine)
  }

  /** The decoding of a file, given the readers of its parts. */
  function DecodeWith(lines: seq<string>, rd: Readers): (r: Result<AigValue, DecodeError>)
  {
    match rd.header(LineAt(lines, 0))
    case Err(e) => Err(e)
    case Ok(h) => DecodeBody(lines, rd.records, rd.classify, h)
  }

  /** The decoding of the lines after a header `h`. */
  function DecodeBody(lines: seq<string>, ps: Parsers, classify: Classifier, h: Header): (r: Result<AigValue, DecodeError>)
  {
    match ReadSections(lines, ps, h)
    case Err(e) => Err(e)
    case Ok(secs) => NameAll(lines, classify, SymbolStart(h), secs)
  }

  /** The symbol table from line `b` applied to the records, the map of
      variables, and the comments. */
  function NameAll(lines: seq<string>, classify: Classifier, b: nat, secs: Sections): (r: Result<AigValue, DecodeError>)
  {
    var init := Names(Unnamed(|secs.inputs|), Unnamed(|secs.latches|), Unnamed(|secs.outputs|));
    match Symbols(lines, classify, b, init)
    case Err(e) => Err(e)
    case Ok((names, comments)) =>
      Ok(AigValue(
        Named(secs.inputs, names.inputs),
        Named(secs.latches, names.latches),
        Named(secs.outputs, names.outputs),
        Named(secs.ands, Unnamed(|secs.ands|)),
        Variables(secs.inputs, secs.latches, secs.ands),
        comments))
  }
}
