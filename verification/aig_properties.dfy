/** Properties of `AIG.from_file` (verification/aig.py) stated on the
    decoded value: what the header demands, which line each record comes
    from, what `variables` holds, how the symbol table names signals and
    where the comments start. */
module AigProperties {
  import opened Wrappers
  import opened AigText
  import opened AigLiteral
  import opened AigSpec

  /** The records decoded signals were built from: the value-level
      counterpart of `AigDecoder.Records`, which reads the same two fields
      from signal objects. */
  function Bare(ss: seq<SignalValue>): (rs: seq<Record>)
    ensures |rs| == |ss|
    ensures forall j :: 0 <= j < |ss| ==> rs[j] == Record(ss[j].role, ss[j].literal)
  {
    seq(|ss|, j requires 0 <= j < |ss| => Record(ss[j].role, ss[j].literal))
  }

  /** The names of decoded signals. */
  function NameList(ss: seq<SignalValue>): (ns: seq<Option<string>>)
    ensures |ns| == |ss|
    ensures forall j :: 0 <= j < |ss| ==> ns[j] == ss[j].name
  {
    seq(|ss|, j requires 0 <= j < |ss| => ss[j].name)
  }

  /** Naming records and forgetting the names again gives back the
      records and the names. */
  lemma NamedParts(rs: seq<Record>, ns: seq<Option<string>>)
    requires |rs| == |ns|
    ensures Bare(Named(rs, ns)) == rs && NameList(Named(rs, ns)) == ns
  {
  }

  // ---------------------------------------------------------------------
  // Record sections

  /** Each record of a section that reads comes from its own line: the
      `j`-th record from line `start + j`. */
  lemma {:induction false} RecordAt(lines: seq<string>, parse: Parser, start: nat, n: nat, rs: seq<Record>, j: nat)
    requires ReadRecords(lines, parse, start, n) == Ok(rs) && j < n
    ensures parse(LineAt(lines, start + j), start + j) == Ok(rs[j])
    decreases n
  {
    var prev := ReadRecords(lines, parse, start, n - 1);
    assert prev.Ok? && rs == prev.value + [rs[n - 1]];
    if j < n - 1 {
      RecordAt(lines, parse, start, n - 1, prev.value, j);
    }
  }

  /** A section whose every line decodes reads. */
  lemma {:induction false} RecordsRead(lines: seq<string>, parse: Parser, start: nat, n: nat)
    requires forall k :: start <= k < start + n ==> parse(LineAt(lines, k), k).Ok?
    ensures ReadRecords(lines, parse, start, n).Ok?
    decreases n
  {
    if n > 0 {
      RecordsRead(lines, parse, start, n - 1);
      assert parse(LineAt(lines, start + n - 1), start + n - 1).Ok?;
    }
  }

  /** A section fails with the error of its first line that does not
      decode. */
  lemma RecordsFirstError(lines: seq<string>, parse: Parser, start: nat, n: nat, j: nat, e: DecodeError)
    requires j < n
    requires forall k :: start <= k < start + j ==> parse(LineAt(lines, k), k).Ok?
    requires parse(LineAt(lines, start + j), start + j) == Err(e)
    ensures ReadRecords(lines, parse, start, n) == Err(e)
  {
    RecordsRead(lines, parse, start, j);
    RecordsFail(lines, parse, start, j, n, e);
  }

  /** A latch line decodes exactly when it has two fields that `int`
      accepts, and an AND line exactly when it has three. */
  lemma RecordFields(text: string, line: nat)
    ensures ParseRecord(Latches, text, line).Ok? <==>
              |Split(text)| == 2 && forall j :: 0 <= j < 2 ==> ParseInt(Split(text)[j]).Some?
    ensures ParseRecord(Ands, text, line).Ok? <==>
              |Split(text)| == 3 && forall j :: 0 <= j < 3 ==> ParseInt(Split(text)[j]).Some?
  {
  }

  // ---------------------------------------------------------------------
  // The decoded value in terms of its parts

  /** The header of a file that decodes. */
  function HeaderOf(lines: seq<string>): Header
    requires Decode(lines).Ok?
  {
    ParseHeader(LineAt(lines, 0)).value
  }

  /** A file decodes only when its first line reads as a header, and a
      header that does not read is the error of the whole file. */
  lemma DecodeHeader(lines: seq<string>)
    ensures Decode(lines).Ok? ==> ParseHeader(LineAt(lines, 0)).Ok?
    ensures ParseHeader(LineAt(lines, 0)).Err? ==> Decode(lines) == Err(ParseHeader(LineAt(lines, 0)).error)
  {
  }

  /** The first line of a file that decodes is `aag` and exactly five
      integers. */
  lemma DecodeNeedsHeader(lines: seq<string>)
    requires Decode(lines).Ok?
    ensures var fields := Split(LineAt(lines, 0));
            && |fields| == 6 && fields[0] == "aag"
            && forall j :: 1 <= j < 6 ==> ParseInt(fields[j]).Some?
  {
    DecodeHeader(lines);
  }

  /** The maximum variable index `M` of the header plays no part in the
      decoding. */
  lemma MaxVarIgnored(lines: seq<string>, ps: Parsers, classify: Classifier, h: Header, m: int)
    ensures DecodeBody(lines, ps, classify, h) == DecodeBody(lines, ps, classify, h.(maxVar := m))
  {
    assert SymbolStart(h) == SymbolStart(h.(maxVar := m));
  }

  /** A decoded file is its record sections read after the header, the
      symbol table read after the records, and the map of variables
      filled from the inputs, latches and AND gates. */
  lemma DecodeParts(lines: seq<string>)
    requires Decode(lines).Ok?
    ensures var h := HeaderOf(lines);
            var v := Decode(lines).value;
            && ReadSections(lines, RecordParsers(), h) == Ok(Sections(Bare(v.inputs), Bare(v.latches), Bare(v.outputs), Bare(v.ands)))
            && Symbols(lines, ClassifyLine, SymbolStart(h), Names(Unnamed(|v.inputs|), Unnamed(|v.latches|), Unnamed(|v.outputs|)))
               == Ok((Names(NameList(v.inputs), NameList(v.latches), NameList(v.outputs)), v.comments))
            && v.variables == Variables(Bare(v.inputs), Bare(v.latches), Bare(v.ands))
            && NameList(v.ands) == Unnamed(|v.ands|)
  {
    DecodeHeader(lines);
    var h := HeaderOf(lines);
    var secs := ReadSections(lines, RecordParsers(), h).value;
    var init := Names(Unnamed(|secs.inputs|), Unnamed(|secs.latches|), Unnamed(|secs.outputs|));
    var names := Symbols(lines, ClassifyLine, SymbolStart(h), init).value.0;
    NamedParts(secs.inputs, names.inputs);
    NamedParts(secs.latches, names.latches);
    NamedParts(secs.outputs, names.outputs);
    NamedParts(secs.ands, Unnamed(|secs.ands|));
  }

  /** The four lists have the lengths the header announces (none for a
      negative count). */
  lemma DecodeCounts(lines: seq<string>)
    requires Decode(lines).Ok?
    ensures var h := HeaderOf(lines);
            var v := Decode(lines).value;
            && |v.inputs| == Count(h.inputs) && |v.latches| == Count(h.latches)
            && |v.outputs| == Count(h.outputs) && |v.ands| == Count(h.ands)
  {
    DecodeParts(lines);
  }

  /** The four sections of a file whose sections read, each read from
      where the one before it ends. */
  lemma SectionsParts(lines: seq<string>, ps: Parsers, h: Header, secs: Sections)
    requires ReadSections(lines, ps, h) == Ok(secs)
    ensures ReadRecords(lines, ps.inputs, 1, Count(h.inputs)) == Ok(secs.inputs)
    ensures ReadRecords(lines, ps.latches, 1 + Count(h.inputs), Count(h.latches)) == Ok(secs.latches)
    ensures ReadRecords(lines, ps.outputs, 1 + Count(h.inputs) + Count(h.latches), Count(h.outputs)) == Ok(secs.outputs)
    ensures ReadRecords(lines, ps.ands, 1 + Count(h.inputs) + Count(h.latches) + Count(h.outputs), Count(h.ands)) == Ok(secs.ands)
  {
  }

  /** The record of an input or output line is the literal `int` reads
      from it. */
  lemma SingleRecord(sec: Section, role: Role, lines: seq<string>, start: nat, n: nat, rs: seq<Record>, j: nat)
    requires (sec == Inputs && role == InputRole) || (sec == Outputs && role == OutputRole)
    requires ReadRecords(lines, RecordParser(sec), start, n) == Ok(rs) && j < n
    ensures var text := Strip(LineAt(lines, start + j));
            && ParseInt(text).Some?
            && rs[j] == Record(role, Literal(ParseInt(text).value))
  {
    RecordAt(lines, RecordParser(sec), start, n, rs, j);
    assert ParseRecord(sec, LineAt(lines, start + j), start + j) == Ok(rs[j]);
  }

  /** The record of a latch line is its two fields read as literals. */
  lemma LatchRecord(lines: seq<string>, start: nat, n: nat, rs: seq<Record>, j: nat)
    requires ReadRecords(lines, RecordParser(Latches), start, n) == Ok(rs) && j < n
    ensures var fields := Split(LineAt(lines, start + j));
            && |fields| == 2 && ParseInt(fields[0]).Some? && ParseInt(fields[1]).Some?
            && rs[j] == Record(LatchRole(Literal(ParseInt(fields[1]).value)), Literal(ParseInt(fields[0]).value))
  {
    RecordAt(lines, RecordParser(Latches), start, n, rs, j);
    assert ParseLatch(LineAt(lines, start + j), start + j) == Ok(rs[j]);
  }

  /** The record of an AND line is its three fields read as literals. */
  lemma AndRecord(lines: seq<string>, start: nat, n: nat, rs: seq<Record>, j: nat)
    requires ReadRecords(lines, RecordParser(Ands), start, n) == Ok(rs) && j < n
    ensures var fields := Split(LineAt(lines, start + j));
            && |fields| == 3 && ParseInt(fields[0]).Some? && ParseInt(fields[1]).Some? && ParseInt(fields[2]).Some?
            && rs[j] == Record(AndRole(Literal(ParseInt(fields[1]).value), Literal(ParseInt(fields[2]).value)),
                               Literal(ParseInt(fields[0]).value))
  {
    RecordAt(lines, RecordParser(Ands), start, n, rs, j);
    assert ParseAnd(LineAt(lines, start + j), start + j) == Ok(rs[j]);
  }

  /** The line that holds the first input: the one after the header. */
  function InputsStart(v: AigValue): nat
  {
    1
  }

  /** The line that holds the first latch. */
  function LatchesStart(v: AigValue): nat
  {
    InputsStart(v) + |v.inputs|
  }

  /** The line that holds the first output. */
  function OutputsStart(v: AigValue): nat
  {
    LatchesStart(v) + |v.latches|
  }

  /** The line that holds the first AND gate. */
  function AndsStart(v: AigValue): nat
  {
    OutputsStart(v) + |v.outputs|
  }

  /** The line where the symbol table begins, right after the records. */
  function TableStart(v: AigValue): nat
  {
    AndsStart(v) + |v.ands|
  }

  /** Sections read after a header are read one after the other, from the
      line after the header. */
  lemma SectionsAt(lines: seq<string>, ps: Parsers, h: Header, v: AigValue)
    requires ReadSections(lines, ps, h) == Ok(Sections(Bare(v.inputs), Bare(v.latches), Bare(v.outputs), Bare(v.ands)))
    ensures ReadRecords(lines, ps.inputs, InputsStart(v), |v.inputs|) == Ok(Bare(v.inputs))
    ensures ReadRecords(lines, ps.latches, LatchesStart(v), |v.latches|) == Ok(Bare(v.latches))
    ensures ReadRecords(lines, ps.outputs, OutputsStart(v), |v.outputs|) == Ok(Bare(v.outputs))
    ensures ReadRecords(lines, ps.ands, AndsStart(v), |v.ands|) == Ok(Bare(v.ands))
  {
    SectionsParts(lines, ps, h, Sections(Bare(v.inputs), Bare(v.latches), Bare(v.outputs), Bare(v.ands)));
    assert LatchesStart(v) == 1 + Count(h.inputs);
    assert OutputsStart(v) == 1 + Count(h.inputs) + Count(h.latches);
    assert AndsStart(v) == 1 + Count(h.inputs) + Count(h.latches) + Count(h.outputs);
  }

  /** The four lists of `v` are the sections of `lines`, read one after
      the other from the line after the header, and no AND gate has a
      name. */
  predicate SectionsOf(lines: seq<string>, v: AigValue)
  {
    && ReadRecords(lines, RecordParser(Inputs), InputsStart(v), |v.inputs|) == Ok(Bare(v.inputs))
    && ReadRecords(lines, RecordParser(Latches), LatchesStart(v), |v.latches|) == Ok(Bare(v.latches))
    && ReadRecords(lines, RecordParser(Outputs), OutputsStart(v), |v.outputs|) == Ok(Bare(v.outputs))
    && ReadRecords(lines, RecordParser(Ands), AndsStart(v), |v.ands|) == Ok(Bare(v.ands))
    && NameList(v.ands) == Unnamed(|v.ands|)
  }

  /** The lists of a decoded file are its sections. */
  lemma DecodeSections(lines: seq<string>, v: AigValue)
    requires Decode(lines) == Ok(v)
    ensures SectionsOf(lines, v)
  {
    DecodeParts(lines);
    SectionsAt(lines, RecordParsers(), HeaderOf(lines), v);
  }

  /** Input `j` is the literal on line `j` after the header. */
  lemma InputAt(lines: seq<string>, v: AigValue, j: nat)
    requires SectionsOf(lines, v) && j < |v.inputs|
    ensures var text := Strip(LineAt(lines, InputsStart(v) + j));
            var s := v.inputs[j];
            && ParseInt(text).Some?
            && s.role == InputRole && s.literal == Literal(ParseInt(text).value)
  {
    SingleRecord(Inputs, InputRole, lines, InputsStart(v), |v.inputs|, Bare(v.inputs), j);
    assert Bare(v.inputs)[j] == Record(v.inputs[j].role, v.inputs[j].literal);
  }

  /** Latch `j` is the two literals on line `j` after the inputs: the
      latch and its successor. */
  lemma LatchAt(lines: seq<string>, v: AigValue, j: nat)
    requires SectionsOf(lines, v) && j < |v.latches|
    ensures var fields := Split(LineAt(lines, LatchesStart(v) + j));
            var s := v.latches[j];
            && |fields| == 2 && ParseInt(fields[0]).Some? && ParseInt(fields[1]).Some?
            && s.literal == Literal(ParseInt(fields[0]).value)
            && s.role == LatchRole(Literal(ParseInt(fields[1]).value))
  {
    LatchRecord(lines, LatchesStart(v), |v.latches|, Bare(v.latches), j);
    assert Bare(v.latches)[j] == Record(v.latches[j].role, v.latches[j].literal);
  }

  /** Output `j` is the literal on line `j` after the latches. */
  lemma OutputAt(lines: seq<string>, v: AigValue, j: nat)
    requires SectionsOf(lines, v) && j < |v.outputs|
    ensures var text := Strip(LineAt(lines, OutputsStart(v) + j));
            var s := v.outputs[j];
            && ParseInt(text).Some?
            && s.role == OutputRole && s.literal == Literal(ParseInt(text).value)
  {
    SingleRecord(Outputs, OutputRole, lines, OutputsStart(v), |v.outputs|, Bare(v.outputs), j);
    assert Bare(v.outputs)[j] == Record(v.outputs[j].role, v.outputs[j].literal);
  }

  /** AND gate `j` is the three literals on line `j` after the outputs:
      the gate and its two operands. It has no name. */
  lemma AndAt(lines: seq<string>, v: AigValue, j: nat)
    requires SectionsOf(lines, v) && j < |v.ands|
    ensures var fields := Split(LineAt(lines, AndsStart(v) + j));
            var s := v.ands[j];
            && |fields| == 3 && ParseInt(fields[0]).Some? && ParseInt(fields[1]).Some? && ParseInt(fields[2]).Some?
            && s.literal == Literal(ParseInt(fields[0]).value)
            && s.role == AndRole(Literal(ParseInt(fields[1]).value), Literal(ParseInt(fields[2]).value))
            && s.name == None
  {
    AndRecord(lines, AndsStart(v), |v.ands|, Bare(v.ands), j);
    assert Bare(v.ands)[j] == Record(v.ands[j].role, v.ands[j].literal);
    assert NameList(v.ands)[j] == None;
  }

  // ---------------------------------------------------------------------
  // The map of variables

  /** A record filed after which no later record of its section has the
      same key is what the section leaves under that key. */
  lemma {:induction false} EnterHit(m: map<nat, VarRef>, rs: seq<Record>, sec: Section, n: nat, j: nat)
    requires sec != Outputs && j < n <= |rs|
    requires forall k :: j < k < n ==> Key(rs[k].literal) != Key(rs[j].literal)
    ensures Key(rs[j].literal) in EnterFirst(m, rs, sec, n)
    ensures EnterFirst(m, rs, sec, n)[Key(rs[j].literal)] == RefOf(sec, j)
    decreases n
  {
    if j < n - 1 {
      EnterHit(m, rs, sec, n - 1, j);
    }
  }

  /** A key no record of the section has keeps what it had before. */
  lemma {:induction false} EnterMiss(m: map<nat, VarRef>, rs: seq<Record>, sec: Section, n: nat, key: nat)
    requires sec != Outputs && n <= |rs|
    requires forall k :: 0 <= k < n ==> Key(rs[k].literal) != key
    ensures key in EnterFirst(m, rs, sec, n) <==> key in m
    ensures key in m ==> EnterFirst(m, rs, sec, n)[key] == m[key]
    decreases n
  {
    if n > 0 {
      EnterMiss(m, rs, sec, n - 1, key);
    }
  }

  /** No record of `rs` has key `key`. */
  predicate Misses(rs: seq<Record>, key: nat)
  {
    forall k :: 0 <= k < |rs| ==> Key(rs[k].literal) != key
  }

  /** No record of `rs` after position `j` has key `key`. */
  predicate LastWith(rs: seq<Record>, j: nat, key: nat)
  {
    j < |rs| && Key(rs[j].literal) == key && forall k :: j < k < |rs| ==> Key(rs[k].literal) != key
  }

  /** The last AND gate with a key owns it. */
  lemma AndWins(ins: seq<Record>, lats: seq<Record>, ands: seq<Record>, j: nat, key: nat)
    requires LastWith(ands, j, key)
    ensures key in Variables(ins, lats, ands) && Variables(ins, lats, ands)[key] == AndRef(j)
  {
    EnterHit(EnterAll(EnterAll(map[], ins, Inputs), lats, Latches), ands, Ands, |ands|, j);
  }

  /** Without an AND gate of that key, the last latch with it owns it. */
  lemma LatchWins(ins: seq<Record>, lats: seq<Record>, ands: seq<Record>, j: nat, key: nat)
    requires LastWith(lats, j, key) && Misses(ands, key)
    ensures key in Variables(ins, lats, ands) && Variables(ins, lats, ands)[key] == LatchRef(j)
  {
    var m := EnterAll(map[], ins, Inputs);
    EnterHit(m, lats, Latches, |lats|, j);
    EnterMiss(EnterAll(m, lats, Latches), ands, Ands, |ands|, key);
  }

  /** Without a latch or an AND gate of that key, the last input with it
      owns it. */
  lemma InputWins(ins: seq<Record>, lats: seq<Record>, ands: seq<Record>, j: nat, key: nat)
    requires LastWith(ins, j, key) && Misses(lats, key) && Misses(ands, key)
    ensures key in Variables(ins, lats, ands) && Variables(ins, lats, ands)[key] == InputRef(j)
  {
    var m := EnterAll(map[], ins, Inputs);
    EnterHit(map[], ins, Inputs, |ins|, j);
    EnterMiss(m, lats, Latches, |lats|, key);
    EnterMiss(EnterAll(m, lats, Latches), ands, Ands, |ands|, key);
  }

  /** A key no input, latch or AND gate has is not in the map, whatever
      the outputs hold. */
  lemma Unfiled(ins: seq<Record>, lats: seq<Record>, ands: seq<Record>, key: nat)
    requires Misses(ins, key) && Misses(lats, key) && Misses(ands, key)
    ensures key !in Variables(ins, lats, ands)
  {
    var m := EnterAll(map[], ins, Inputs);
    EnterMiss(map[], ins, Inputs, |ins|, key);
    EnterMiss(m, lats, Latches, |lats|, key);
    EnterMiss(EnterAll(m, lats, Latches), ands, Ands, |ands|, key);
  }

  // ---------------------------------------------------------------------
  // The symbol table

  /** The line that ends the symbol table read from line `j`: the first
      one the classifier calls the start of the comments, or the end of
      the file. */
  function TableEnd(lines: seq<string>, classify: Classifier, j: nat): (e: nat)
    ensures j <= |lines| ==> j <= e <= |lines|
    ensures forall k :: j <= k < e && k < |lines| ==> !classify(lines[k]).CommentStart?
    ensures e < |lines| ==> classify(lines[e]).CommentStart?
    decreases |lines| - j
  {
    if j >= |lines| then j
    else if classify(lines[j]).CommentStart? then j
    else TableEnd(lines, classify, j + 1)
  }

  /** The length of one of the named lists. */
  function Length(names: Names, list: NamedList): nat
  {
    match list
    case InputList => |names.inputs|
    case LatchList => |names.latches|
    case OutputList => |names.outputs|
  }

  /** The names of one of the named lists. */
  function NamesIn(names: Names, list: NamedList): (ns: seq<Option<string>>)
    ensures |ns| == Length(names, list)
  {
    match list
    case InputList => names.inputs
    case LatchList => names.latches
    case OutputList => names.outputs
  }

  /** A line of the table the loop gets past: one it ignores, or one that
      names a position `int` accepts and the list has. */
  predicate Accepted(sl: SymbolLine, names: Names)
  {
    sl.Naming? ==> sl.position.Some? && Wrap(sl.position.value, Length(names, sl.list)).Some?
  }

  /** The error a naming line the loop does not get past raises. */
  function Failure(sl: SymbolLine, j: nat): DecodeError
  {
    if sl.Naming? && sl.position.None? then NotANumber(j) else IndexOutOfRange(j)
  }

  /** Renaming keeps the lengths of the lists and changes the one named
      position. */
  lemma RenameEffect(names: Names, list: NamedList, index: int, name: string)
    requires Wrap(index, Length(names, list)).Some?
    ensures var r := Rename(names, list, index, name);
            && r.Some?
            && (forall l :: Length(r.value, l) == Length(names, l))
            && NamesIn(r.value, list) == NamesIn(names, list)[Wrap(index, Length(names, list)).value := Some(name)]
            && (forall l :: l != list ==> NamesIn(r.value, l) == NamesIn(names, l))
  {
  }

  /** The table reads when each of its lines is accepted. */
  lemma {:induction false} SymbolsSucceed(lines: seq<string>, classify: Classifier, j: nat, names: Names)
    requires forall k :: j <= k < TableEnd(lines, classify, j) && k < |lines| ==> Accepted(classify(lines[k]), names)
    ensures Symbols(lines, classify, j, names).Ok?
    decreases |lines| - j
  {
    if j < |lines| && !classify(lines[j]).CommentStart? {
      var sl := classify(lines[j]);
      if sl.Naming? {
        RenameEffect(names, sl.list, sl.position.value, sl.name);
        var names' := Rename(names, sl.list, sl.position.value, sl.name).value;
        forall k | j + 1 <= k < TableEnd(lines, classify, j + 1) && k < |lines|
          ensures Accepted(classify(lines[k]), names')
        {
          assert Accepted(classify(lines[k]), names);
        }
        SymbolsSucceed(lines, classify, j + 1, names');
      } else {
        SymbolsSucceed(lines, classify, j + 1, names);
      }
    }
  }

  /** The table fails with the error of its first line that is not
      accepted: a position `int` rejects, or one outside its list. */
  lemma {:induction false} SymbolsFail(lines: seq<string>, classify: Classifier, j: nat, names: Names, f: nat)
    requires j <= f < TableEnd(lines, classify, j) && f < |lines|
    requires forall k :: j <= k < f ==> Accepted(classify(lines[k]), names)
    requires !Accepted(classify(lines[f]), names)
    ensures Symbols(lines, classify, j, names) == Err(Failure(classify(lines[f]), f))
    decreases f - j
  {
    var sl := classify(lines[j]);
    if j < f {
      assert Accepted(sl, names);
      if sl.Naming? {
        RenameEffect(names, sl.list, sl.position.value, sl.name);
        var names' := Rename(names, sl.list, sl.position.value, sl.name).value;
        forall k | j + 1 <= k < f
          ensures Accepted(classify(lines[k]), names')
        {
          assert Accepted(classify(lines[k]), names);
        }
        SymbolsFail(lines, classify, j + 1, names', f);
      } else {
        SymbolsFail(lines, classify, j + 1, names, f);
      }
    }
  }

  /** The comments are the lines after the one that ends the table, and
      none when no line does. */
  lemma {:induction false} SymbolsComments(lines: seq<string>, classify: Classifier, j: nat, names: Names)
    requires Symbols(lines, classify, j, names).Ok?
    ensures var e := TableEnd(lines, classify, j);
            Symbols(lines, classify, j, names).value.1 == if e < |lines| then lines[e + 1..] else []
    decreases |lines| - j
  {
    if j < |lines| && !classify(lines[j]).CommentStart? {
      var sl := classify(lines[j]);
      if sl.Naming? {
        SymbolsComments(lines, classify, j + 1, Rename(names, sl.list, sl.position.value, sl.name).value);
      } else {
        SymbolsComments(lines, classify, j + 1, names);
      }
    }
  }

  /** The name the table lines `j` to `e` give position `w` of `list`:
      that of the last line naming it, or none. */
  function LastNaming(lines: seq<string>, classify: Classifier, j: nat, e: nat, list: NamedList, len: nat, w: nat): Option<string>
    decreases |lines| - j
  {
    if j >= e || j >= |lines| then None
    else
      match LastNaming(lines, classify, j + 1, e, list, len, w)
      case Some(n) => Some(n)
      case None =>
        var sl := classify(lines[j]);
        if sl.Naming? && sl.list == list && sl.position.Some? && Wrap(sl.position.value, len) == Some(w)
        then Some(sl.name) else None
  }

  /** After the table, a position holds the name of the last line that
      named it, and keeps its old name when no line did. */
  lemma {:induction false} SymbolsNames(lines: seq<string>, classify: Classifier, j: nat, names: Names, list: NamedList, w: nat)
    requires Symbols(lines, classify, j, names).Ok? && w < Length(names, list)
    ensures var n := LastNaming(lines, classify, j, TableEnd(lines, classify, j), list, Length(names, list), w);
            NamesIn(Symbols(lines, classify, j, names).value.0, list)[w] == if n.Some? then n else NamesIn(names, list)[w]
    decreases |lines| - j
  {
    if j < |lines| && !classify(lines[j]).CommentStart? {
      var sl := classify(lines[j]);
      if sl.Naming? {
        RenameEffect(names, sl.list, sl.position.value, sl.name);
        var names' := Rename(names, sl.list, sl.position.value, sl.name).value;
        SymbolsNames(lines, classify, j + 1, names', list, w);
      } else {
        SymbolsNames(lines, classify, j + 1, names, list, w);
      }
    }
  }

  /** Once the sections have read, the first symbol line the loop does
      not get past is the error of the whole file. */
  lemma SymbolFailureFails(lines: seq<string>, ps: Parsers, classify: Classifier, h: Header, secs: Sections, f: nat)
    requires ReadSections(lines, ps, h) == Ok(secs)
    requires var b, init := SymbolStart(h), Names(Unnamed(|secs.inputs|), Unnamed(|secs.latches|), Unnamed(|secs.outputs|));
             && b <= f < TableEnd(lines, classify, b) && f < |lines|
             && (forall k :: b <= k < f ==> Accepted(classify(lines[k]), init))
             && !Accepted(classify(lines[f]), init)
    ensures DecodeBody(lines, ps, classify, h) == Err(Failure(classify(lines[f]), f))
  {
    var init := Names(Unnamed(|secs.inputs|), Unnamed(|secs.latches|), Unnamed(|secs.outputs|));
    SymbolsFail(lines, classify, SymbolStart(h), init, f);
  }

  /** The AIGER table ends at a line that strips to `c`. */
  lemma CommentLine(line: string)
    ensures ClassifyLine(line).CommentStart? <==> Strip(line) == "c"
  {
  }

  /** The position of a symbol line goes to `int` unstripped, so a
      separator `\x1c` after it makes the line unreadable even though
      `strip` would remove it: `i0\x1c x` names no input. */
  lemma SeparatorInPosition()
    ensures ClassifyLine("i0\U{001C} x\n") == Naming(InputList, None, "x")
  {
    SeparatorLine("i0\U{001C} x\n");
  }

  lemma SeparatorLine(line: string)
    requires line == "i0\U{001C} x\n"
    ensures ClassifyLine(line) == Naming(InputList, None, "x")
  {
    SeparatorNotComment(line);
    assert line[0] == 'i' && line[1..] == "0\U{001C} x\n";
    SeparatorPartition(line[1..]);
    SeparatorIsNoIntSpace();
    NewlineStripped();
  }

  lemma NewlineStripped()
    ensures Strip("x\n") == "x"
  {
    StripPadding("", "x", "\n");
    assert "" + "x" + "\n" == "x\n";
  }

  lemma SeparatorNotComment(line: string)
    requires line == "i0\U{001C} x\n"
    ensures Strip(line) != "c"
  {
    assert SkipWs(line, 0) == 0;
    var b := BackWs(line, |line|);
    assert b > 0 ==> Strip(line)[0] == 'i';
  }

  lemma SeparatorPartition(pos: string)
    requires pos == "0\U{001C} x\n"
    ensures Partition(pos) == ("0\U{001C}", true, "x\n")
  {
    var t1: string, t2: string := "\U{001C} x\n", " x\n";
    assert t2[1..] == "x\n";
    assert Partition(t2) == ("", true, "x\n");
    assert t1[1..] == t2 && [t1[0]] + "" == "\U{001C}";
    assert Partition(t1) == ("\U{001C}", true, "x\n");
    assert pos[1..] == t1 && [pos[0]] + "\U{001C}" == "0\U{001C}";
  }

  // ---------------------------------------------------------------------
  // The symbol table of a decoded file

  /** The line that ends the symbol table of `lines` when it starts where
      that of `v` does. */
  function EndOfTable(lines: seq<string>, v: AigValue): nat
  {
    TableEnd(lines, ClassifyLine, TableStart(v))
  }

  /** The symbol table of a decoded file is read from the line after its
      records, starting from unnamed signals, and gives its names and
      comments. */
  lemma DecodeTable(lines: seq<string>, v: AigValue)
    requires Decode(lines) == Ok(v)
    ensures Symbols(lines, ClassifyLine, TableStart(v), Names(Unnamed(|v.inputs|), Unnamed(|v.latches|), Unnamed(|v.outputs|)))
            == Ok((Names(NameList(v.inputs), NameList(v.latches), NameList(v.outputs)), v.comments))
  {
    var h := HeaderOf(lines);
    DecodeParts(lines);
    DecodeCounts(lines);
    TableAfterRecords(v, h);
  }

  /** Sections of the announced lengths end where the header says the
      table begins. */
  lemma TableAfterRecords(v: AigValue, h: Header)
    requires |v.inputs| == Count(h.inputs) && |v.latches| == Count(h.latches)
    requires |v.outputs| == Count(h.outputs) && |v.ands| == Count(h.ands)
    ensures TableStart(v) == SymbolStart(h)
  {
  }

  /** An AIGER table read from line `b` ends at the first line from `b` on
      that strips to `c`, or at the end of the file. */
  lemma TableEndsAtComment(lines: seq<string>, b: nat)
    ensures var e := TableEnd(lines, ClassifyLine, b);
            && (forall k :: b <= k < e && k < |lines| ==> Strip(lines[k]) != "c")
            && (e < |lines| ==> Strip(lines[e]) == "c")
  {
    var e := TableEnd(lines, ClassifyLine, b);
    forall k | b <= k < e && k < |lines| ensures Strip(lines[k]) != "c" {
      CommentLine(lines[k]);
    }
    if e < |lines| {
      CommentLine(lines[e]);
    }
  }

  /** The table of a decoded file ends at the first line after the records
      that strips to `c`, and the comments are all lines after it, or
      none. */
  lemma DecodeComments(lines: seq<string>, v: AigValue)
    requires Decode(lines) == Ok(v)
    ensures var b, e := TableStart(v), EndOfTable(lines, v);
            && (forall k :: b <= k < e && k < |lines| ==> Strip(lines[k]) != "c")
            && (e < |lines| ==> Strip(lines[e]) == "c")
            && v.comments == if e < |lines| then lines[e + 1..] else []
  {
    DecodeTable(lines, v);
    ValueComments(lines, v);
  }

  /** `DecodeComments` for a value whose table reads. */
  lemma ValueComments(lines: seq<string>, v: AigValue)
    requires Symbols(lines, ClassifyLine, TableStart(v), Names(Unnamed(|v.inputs|), Unnamed(|v.latches|), Unnamed(|v.outputs|)))
             == Ok((Names(NameList(v.inputs), NameList(v.latches), NameList(v.outputs)), v.comments))
    ensures var b, e := TableStart(v), EndOfTable(lines, v);
            && (forall k :: b <= k < e && k < |lines| ==> Strip(lines[k]) != "c")
            && (e < |lines| ==> Strip(lines[e]) == "c")
            && v.comments == if e < |lines| then lines[e + 1..] else []
  {
    var init := Names(Unnamed(|v.inputs|), Unnamed(|v.latches|), Unnamed(|v.outputs|));
    var names := Names(NameList(v.inputs), NameList(v.latches), NameList(v.outputs));
    TableComments(lines, TableStart(v), init, names, v.comments);
  }

  /** A table read from line `b` ends at its first comment start, and its
      comments are the lines after that one. */
  lemma TableComments(lines: seq<string>, b: nat, init: Names, names: Names, comments: seq<string>)
    requires Symbols(lines, ClassifyLine, b, init) == Ok((names, comments))
    ensures var e := TableEnd(lines, ClassifyLine, b);
            && (forall k :: b <= k < e && k < |lines| ==> Strip(lines[k]) != "c")
            && (e < |lines| ==> Strip(lines[e]) == "c")
            && comments == if e < |lines| then lines[e + 1..] else []
  {
    SymbolsComments(lines, ClassifyLine, b, init);
    TableEndsAtComment(lines, b);
  }

  /** Input `w` carries the name of the last symbol line naming it, and no
      name when none does; the same for latches and outputs. */
  lemma DecodeNames(lines: seq<string>, v: AigValue, list: NamedList, w: nat)
    requires Decode(lines) == Ok(v)
    requires w < Length(Names(NameList(v.inputs), NameList(v.latches), NameList(v.outputs)), list)
    ensures var final := Names(NameList(v.inputs), NameList(v.latches), NameList(v.outputs));
            NamesIn(final, list)[w] ==
              LastNaming(lines, ClassifyLine, TableStart(v), EndOfTable(lines, v), list, Length(final, list), w)
  {
    DecodeTable(lines, v);
    var init := Names(Unnamed(|v.inputs|), Unnamed(|v.latches|), Unnamed(|v.outputs|));
    SymbolsNames(lines, ClassifyLine, TableStart(v), init, list, w);
  }

  /** The map of a decoded file: the last AND gate, else the last latch,
      else the last input with a key owns it; outputs own none. */
  lemma DecodeVariables(lines: seq<string>, v: AigValue, key: nat)
    requires Decode(lines) == Ok(v)
    ensures var ins, lats, ands := Bare(v.inputs), Bare(v.latches), Bare(v.ands);
            && (forall j :: LastWith(ands, j, key) ==> key in v.variables && v.variables[key] == AndRef(j))
            && (forall j :: LastWith(lats, j, key) && Misses(ands, key) ==> key in v.variables && v.variables[key] == LatchRef(j))
            && (forall j :: LastWith(ins, j, key) && Misses(lats, key) && Misses(ands, key) ==>
                  key in v.variables && v.variables[key] == InputRef(j))
            && (Misses(ins, key) && Misses(lats, key) && Misses(ands, key) ==> key !in v.variables)
  {
    DecodeParts(lines);
    var ins, lats, ands := Bare(v.inputs), Bare(v.latches), Bare(v.ands);
    forall j | LastWith(ands, j, key) ensures key in v.variables && v.variables[key] == AndRef(j) {
      AndWins(ins, lats, ands, j, key);
    }
    forall j | LastWith(lats, j, key) && Misses(ands, key) ensures key in v.variables && v.variables[key] == LatchRef(j) {
      LatchWins(ins, lats, ands, j, key);
    }
    forall j | LastWith(ins, j, key) && Misses(lats, key) && Misses(ands, key)
      ensures key in v.variables && v.variables[key] == InputRef(j)
    {
      InputWins(ins, lats, ands, j, key);
    }
    if Misses(ins, key) && Misses(lats, key) && Misses(ands, key) {
      Unfiled(ins, lats, ands, key);
    }
  }
}
