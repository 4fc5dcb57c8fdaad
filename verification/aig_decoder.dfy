/** `AIG.from_file` (verification/aig.py) as the source runs it: signal
    objects created line by line, appended to lists, filed in `variables`
    under the absolute value of their literal, and renamed in place by the
    symbol table. Each step is proved against the functions of `AigSpec`. */
module AigDecoder {
  import opened Wrappers
  import opened AigText
  import opened AigLiteral
  import opened AigSpec

  /** `Signal` and its subclasses `Input`, `Latch`, `Output` and `And`;
      the role says which, and holds a latch's successor or a gate's
      operands. Only the name changes after construction. */
  class Signal {
    const role: Role
    const literal: Lit
    var name: Option<string>
    /** The position of the signal among all signals of the file, in
        creation order: a proof device that tells signal objects apart. */
    ghost const id: nat

    constructor (role: Role, literal: Lit, ghost id: nat)
      ensures this.role == role && this.literal == literal && name == None && this.id == id
    {
      this.role := role;
      this.literal := literal;
      name := None;
      this.id := id;
    }
  }

  /** The records the signals were built from. */
  function Records(ss: seq<Signal>): (rs: seq<Record>)
    ensures |rs| == |ss|
    ensures forall j :: 0 <= j < |ss| ==> rs[j] == Record(ss[j].role, ss[j].literal)
  {
    seq(|ss|, j requires 0 <= j < |ss| => Record(ss[j].role, ss[j].literal))
  }

  /** Signals that carry no name yet read as an unnamed list. */
  lemma NoNames(ss: seq<Signal>)
    requires forall s :: s in ss ==> s.name == None
    ensures NamesOf(ss) == Unnamed(|ss|)
  {
    forall j | 0 <= j < |ss|
      ensures NamesOf(ss)[j] == None
    {
      assert ss[j] in ss;
    }
  }

  /** The current names of the signals. */
  function NamesOf(ss: seq<Signal>): (ns: seq<Option<string>>)
    reads ss
    ensures |ns| == |ss|
    ensures forall j :: 0 <= j < |ss| ==> ns[j] == ss[j].name
  {
    seq(|ss|, j reads ss requires 0 <= j < |ss| => ss[j].name)
  }

  /** No signal appears twice. */
  predicate Unique(ss: seq<Signal>)
  {
    forall a, b :: 0 <= a < b < |ss| ==> ss[a] != ss[b]
  }

  /** The signals carry consecutive positions from `base`. */
  ghost predicate Numbered(ss: seq<Signal>, base: nat)
  {
    forall j :: 0 <= j < |ss| ==> ss[j].id == base + j
  }

  lemma NumberedUnique(ss: seq<Signal>, base: nat)
    requires Numbered(ss, base)
    ensures Unique(ss)
  {
  }

  lemma NumberedConcat(xs: seq<Signal>, ys: seq<Signal>, base: nat)
    requires Numbered(xs, base) && Numbered(ys, base + |xs|)
    ensures Numbered(xs + ys, base)
  {
  }

  /** No signal appears in both lists. */
  predicate Apart(xs: seq<Signal>, ys: seq<Signal>)
  {
    forall a, b :: 0 <= a < |xs| && 0 <= b < |ys| ==> xs[a] != ys[b]
  }

  /** The signal a reference of the specification stands for. */
  function Deref(r: VarRef, ins: seq<Signal>, lats: seq<Signal>, ands: seq<Signal>): Option<Signal>
  {
    match r
    case InputRef(i) => if i < |ins| then Some(ins[i]) else None
    case LatchRef(i) => if i < |lats| then Some(lats[i]) else None
    case AndRef(i) => if i < |ands| then Some(ands[i]) else None
  }

  /** The map of objects files the very objects the map of references
      names, under the same keys. */
  predicate Points(vm: map<nat, Signal>, sm: map<nat, VarRef>, ins: seq<Signal>, lats: seq<Signal>, ands: seq<Signal>)
  {
    vm.Keys == sm.Keys && forall k :: k in sm ==> Deref(sm[k], ins, lats, ands) == Some(vm[k])
  }

  /** The three lists `variables` points into while section `sec` is read:
      the sections before it are complete, the one being read is `built`
      so far, the ones after it are still empty. */
  function Place(sec: Section, ins: seq<Signal>, lats: seq<Signal>, built: seq<Signal>): (seq<Signal>, seq<Signal>, seq<Signal>)
  {
    match sec
    case Inputs => (built, [], [])
    case Latches => (ins, built, [])
    case Outputs => (ins, lats, [])
    case Ands => (ins, lats, built)
  }

  /** Appending a signal and filing it under `key` keeps the two maps in
      step. */
  lemma PointsAppend(sec: Section, vm: map<nat, Signal>, sm: map<nat, VarRef>,
                     ins: seq<Signal>, lats: seq<Signal>, built: seq<Signal>, s: Signal, key: nat)
    requires sec != Outputs
    requires var p := Place(sec, ins, lats, built); Points(vm, sm, p.0, p.1, p.2)
    ensures var p := Place(sec, ins, lats, built + [s]);
            Points(vm[key := s], sm[key := RefOf(sec, |built|)], p.0, p.1, p.2)
  {
    var p := Place(sec, ins, lats, built);
    var p' := Place(sec, ins, lats, built + [s]);
    forall k | k in sm
      ensures Deref(sm[k], p'.0, p'.1, p'.2) == Deref(sm[k], p.0, p.1, p.2)
    {
      match sm[k]
      case InputRef(i) =>
      case LatchRef(i) =>
      case AndRef(i) =>
    }
  }

  /** The AIG object: its lists, its map and its comments are fixed once
      it is built. */
  class Aig {
    const inputs: seq<Signal>
    const latches: seq<Signal>
    const outputs: seq<Signal>
    const ands: seq<Signal>
    const variables: map<nat, Signal>
    const comments: seq<string>

    constructor (inputs: seq<Signal>, latches: seq<Signal>, outputs: seq<Signal>, ands: seq<Signal>,
                 variables: map<nat, Signal>, comments: seq<string>)
      ensures this.inputs == inputs && this.latches == latches && this.outputs == outputs
      ensures this.ands == ands && this.variables == variables && this.comments == comments
    {
      this.inputs := inputs;
      this.latches := latches;
      this.outputs := outputs;
      this.ands := ands;
      this.variables := variables;
      this.comments := comments;
    }

    /** The object graph is the decoded value `v`: the lists hold its
        signals in order with their names, and `variables` files, under
        the same keys, the very objects of the lists `v` refers to. */
    predicate Denotes(v: AigValue)
      reads this, inputs, latches, outputs, ands
    {
      Named(Records(inputs), NamesOf(inputs)) == v.inputs &&
      Named(Records(latches), NamesOf(latches)) == v.latches &&
      Named(Records(outputs), NamesOf(outputs)) == v.outputs &&
      Named(Records(ands), NamesOf(ands)) == v.ands &&
      Points(variables, v.variables, inputs, latches, ands) &&
      comments == v.comments
    }

    /** Every signal is a separate object. */
    predicate Distinct()
    {
      Unique(inputs + latches + outputs + ands)
    }
  }

  /** One of the four `for _ in range(n)` loops: reads `n` record lines
      from `start`, creates a signal per line and, except for outputs,
      files it in `variables`. */
  method ReadSection(lines: seq<string>, sec: Section, parse: Parser, start: nat, n: nat,
                     ins: seq<Signal>, lats: seq<Signal>, ghost base: nat,
                     variables: map<nat, Signal>, ghost refs: map<nat, VarRef>)
    returns (r: Result<seq<Signal>, DecodeError>, variables': map<nat, Signal>)
    requires var p := Place(sec, ins, lats, []); Points(variables, refs, p.0, p.1, p.2)
    ensures r.Err? ==> ReadRecords(lines, parse, start, n) == Err(r.error)
    ensures r.Ok? ==> ReadRecords(lines, parse, start, n) == Ok(Records(r.value))
    ensures r.Ok? ==> Numbered(r.value, base) && forall s :: s in r.value ==> fresh(s) && s.name == None
    ensures r.Ok? && sec == Outputs ==> variables' == variables
    ensures r.Ok? && sec != Outputs ==>
              var p := Place(sec, ins, lats, r.value);
              Points(variables', EnterAll(refs, Records(r.value), sec), p.0, p.1, p.2)
  {
    var built: seq<Signal> := [];
    variables' := variables;
    var i := 0;
    while i < n
      invariant 0 <= i <= n && |built| == i
      invariant ReadRecords(lines, parse, start, i) == Ok(Records(built))
      invariant Numbered(built, base) && forall s :: s in built ==> fresh(s) && s.name == None
      invariant sec == Outputs ==> variables' == variables
      invariant sec != Outputs ==>
                  var p := Place(sec, ins, lats, built);
                  Points(variables', EnterAll(refs, Records(built), sec), p.0, p.1, p.2)
    {
      var rec := parse(LineAt(lines, start + i), start + i);
      if rec.Err? {
        RecordsFail(lines, parse, start, i, n, rec.error);
        return Err(rec.error), variables';
      }
      var s := new Signal(rec.value.role, rec.value.literal, base + i);
      if sec != Outputs {
        EnterStep(sec, variables', refs, ins, lats, built, s);
        variables' := variables'[Key(s.literal) := s];
      }
      RecordsStep(lines, parse, start, i, built, s);
      built := built + [s];
      i := i + 1;
    }
    r := Ok(built);
  }

  /** Filing the next signal of a section keeps the map of objects in step
      with the map of references. */
  lemma EnterStep(sec: Section, vm: map<nat, Signal>, refs: map<nat, VarRef>,
                  ins: seq<Signal>, lats: seq<Signal>, built: seq<Signal>, s: Signal)
    requires sec != Outputs
    requires var p := Place(sec, ins, lats, built); Points(vm, EnterAll(refs, Records(built), sec), p.0, p.1, p.2)
    ensures var p := Place(sec, ins, lats, built + [s]);
            Points(vm[Key(s.literal) := s], EnterAll(refs, Records(built + [s]), sec), p.0, p.1, p.2)
  {
    var rs := Records(built + [s]);
    assert rs == Records(built) + [Record(s.role, s.literal)];
    EnterFirstPrefix(refs, Records(built), [Record(s.role, s.literal)], sec, |built|);
    PointsAppend(sec, vm, EnterAll(refs, Records(built), sec), ins, lats, built, s, Key(s.literal));
  }

  /** The parts of a list without repetitions have none, and share no
      signal. */
  lemma UniqueConcat(xs: seq<Signal>, ys: seq<Signal>)
    requires Unique(xs + ys)
    ensures Unique(xs) && Unique(ys) && Apart(xs, ys)
  {
    assert forall a :: 0 <= a < |xs| ==> (xs + ys)[a] == xs[a];
    assert forall b :: 0 <= b < |ys| ==> (xs + ys)[|xs| + b] == ys[b];
  }

  /** A list apart from three others shares no signal with any of them. */
  lemma ApartThree(xs: seq<Signal>, ys: seq<Signal>, zs: seq<Signal>, others: seq<Signal>)
    requires Apart(xs + ys + zs, others)
    ensures forall s :: s in others ==> s !in xs && s !in ys && s !in zs
  {
    var all := xs + ys + zs;
    assert forall a :: 0 <= a < |xs| ==> all[a] == xs[a];
    assert forall a :: 0 <= a < |ys| ==> all[|xs| + a] == ys[a];
    assert forall a :: 0 <= a < |zs| ==> all[|xs| + |ys| + a] == zs[a];
  }

  lemma UniqueThree(xs: seq<Signal>, ys: seq<Signal>, zs: seq<Signal>)
    requires Unique(xs + ys + zs)
    ensures Unique(xs) && Unique(ys) && Unique(zs)
    ensures Apart(xs, ys) && Apart(xs, zs) && Apart(ys, zs)
  {
    UniqueConcat(xs + ys, zs);
    UniqueConcat(xs, ys);
    assert forall a :: 0 <= a < |xs| ==> (xs + ys)[a] == xs[a];
    assert forall b :: 0 <= b < |ys| ==> (xs + ys)[|xs| + b] == ys[b];
  }

  /** A line that decodes extends the section by its record. */
  lemma RecordsStep(lines: seq<string>, parse: Parser, start: nat, i: nat, built: seq<Signal>, s: Signal)
    requires ReadRecords(lines, parse, start, i) == Ok(Records(built))
    requires parse(LineAt(lines, start + i), start + i) == Ok(Record(s.role, s.literal))
    ensures ReadRecords(lines, parse, start, i + 1) == Ok(Records(built + [s]))
  {
    assert start + (i + 1) - 1 == start + i;
    assert Records(built + [s]) == Records(built) + [Record(s.role, s.literal)];
  }

  /** The names the three named lists hold now. */
  function CurrentNames(ins: seq<Signal>, lats: seq<Signal>, outs: seq<Signal>): Names
    reads ins, lats, outs
  {
    Names(NamesOf(ins), NamesOf(lats), NamesOf(outs))
  }

  /** `xs[index].name = name`: one signal of a list is renamed, and no
      signal of the other lists. */
  method SetName(ss: seq<Signal>, w: nat, name: string, others1: seq<Signal>, others2: seq<Signal>)
    requires w < |ss| && Unique(ss) && ss[w] !in others1 && ss[w] !in others2
    modifies ss[w]
    ensures NamesOf(ss) == old(NamesOf(ss))[w := Some(name)]
    ensures NamesOf(others1) == old(NamesOf(others1)) && NamesOf(others2) == old(NamesOf(others2))
  {
    ss[w].name := Some(name);
  }

  /** `xs[index].name = name` on the list a symbol line selects, with
      Python's indexing: false, renaming nothing, where Python raises
      `IndexError`. */
  method Rename(list: NamedList, index: int, name: string, ins: seq<Signal>, lats: seq<Signal>, outs: seq<Signal>)
    returns (renamed: bool)
    requires Unique(ins + lats + outs)
    modifies ins, lats, outs
    ensures var spec := AigSpec.Rename(old(CurrentNames(ins, lats, outs)), list, index, name);
            (renamed <==> spec.Some?) && (renamed ==> CurrentNames(ins, lats, outs) == spec.value)
  {
    UniqueThree(ins, lats, outs);
    match list {
      case InputList =>
        var w := Wrap(index, |ins|);
        if w.None? {
          return false;
        }
        SetName(ins, w.value, name, lats, outs);
      case LatchList =>
        var w := Wrap(index, |lats|);
        if w.None? {
          return false;
        }
        SetName(lats, w.value, name, ins, outs);
      case OutputList =>
        var w := Wrap(index, |outs|);
        if w.None? {
          return false;
        }
        SetName(outs, w.value, name, ins, lats);
    }
    renamed := true;
  }

  /** The `for line in file` loop: names signals in place until the line
      that ends the symbol table, and returns the lines after it. */
  method NameSignals(lines: seq<string>, classify: Classifier, b: nat, ins: seq<Signal>, lats: seq<Signal>, outs: seq<Signal>,
                     ghost others: seq<Signal>)
    returns (r: Result<seq<string>, DecodeError>)
    requires Unique(ins + lats + outs)
    requires forall s :: s in others ==> s !in ins && s !in lats && s !in outs
    modifies ins, lats, outs
    ensures forall s :: s in others ==> s.name == old(s.name)
    ensures var s := Symbols(lines, classify, b, old(CurrentNames(ins, lats, outs)));
            (r.Err? <==> s.Err?) &&
            (r.Err? ==> r.error == s.error) &&
            (r.Ok? ==> s.value == (CurrentNames(ins, lats, outs), r.value))
  {
    ghost var goal := Symbols(lines, classify, b, CurrentNames(ins, lats, outs));
    var j := b;
    while j < |lines|
      invariant Symbols(lines, classify, j, CurrentNames(ins, lats, outs)) == goal
      decreases |lines| - j
    {
      match classify(lines[j]) {
        case CommentStart =>
          return Ok(lines[j + 1..]);
        case Ignored =>
        case Naming(list, position, name) =>
          if position.None? {
            return Err(NotANumber(j));
          }
          var renamed := Rename(list, position.value, name, ins, lats, outs);
          if !renamed {
            return Err(IndexOutOfRange(j));
          }
      }
      j := j + 1;
    }
    r := Ok([]);
  }

  /** The signal objects of the four sections. */
  datatype SignalLists = SignalLists(inputs: seq<Signal>, latches: seq<Signal>, outputs: seq<Signal>, ands: seq<Signal>)
  {
    /** The records the objects were built from. */
    function Sources(): Sections
    {
      Sections(Records(inputs), Records(latches), Records(outputs), Records(ands))
    }

    function All(): seq<Signal>
    {
      inputs + latches + outputs + ands
    }
  }

  /** The first two record loops: the inputs and the latches, filed in
      `variables`. */
  method ReadFront(lines: seq<string>, ps: Parsers, h: Header)
    returns (r: Result<(seq<Signal>, seq<Signal>), DecodeError>, variables: map<nat, Signal>)
    ensures r.Err? ==> ReadSections(lines, ps, h) == Err(r.error)
    ensures r.Ok? ==> ReadRecords(lines, ps.inputs, 1, Count(h.inputs)) == Ok(Records(r.value.0))
    ensures r.Ok? ==> ReadRecords(lines, ps.latches, 1 + Count(h.inputs), Count(h.latches)) == Ok(Records(r.value.1))
    ensures r.Ok? ==> Numbered(r.value.0 + r.value.1, 0)
    ensures r.Ok? ==> forall s :: s in r.value.0 ==> fresh(s) && s.name == None
    ensures r.Ok? ==> forall s :: s in r.value.1 ==> fresh(s) && s.name == None
    ensures r.Ok? ==> var refs := EnterAll(EnterAll(map[], Records(r.value.0), Inputs), Records(r.value.1), Latches);
                      Points(variables, refs, r.value.0, r.value.1, [])
  {
    var ni, nl := Count(h.inputs), Count(h.latches);
    var read;
    read, variables := ReadSection(lines, Inputs, ps.inputs, 1, ni, [], [], 0, map[], map[]);
    if read.Err? {
      InputsFail(lines, ps, h, read.error);
      return Err(read.error), variables;
    }
    var ins := read.value;
    ghost var refs := EnterAll(map[], Records(ins), Inputs);
    read, variables := ReadSection(lines, Latches, ps.latches, 1 + ni, nl, ins, [], ni, variables, refs);
    if read.Err? {
      LatchesFail(lines, ps, h, Records(ins), read.error);
      return Err(read.error), variables;
    }
    NumberedConcat(ins, read.value, 0);
    r := Ok((ins, read.value));
  }

  /** The four record loops: the signal objects, new, distinct and
      unnamed, and the map filing each input, latch and gate under its
      variable index. */
  method ReadAll(lines: seq<string>, ps: Parsers, h: Header) returns (r: Result<SignalLists, DecodeError>, variables: map<nat, Signal>)
    ensures r.Err? ==> ReadSections(lines, ps, h) == Err(r.error)
    ensures r.Ok? ==> ReadSections(lines, ps, h) == Ok(r.value.Sources())
    ensures r.Ok? ==> Unique(r.value.All())
    ensures r.Ok? ==> var l := r.value;
                      (forall s :: s in l.inputs ==> fresh(s) && s.name == None) &&
                      (forall s :: s in l.latches ==> fresh(s) && s.name == None) &&
                      (forall s :: s in l.outputs ==> fresh(s) && s.name == None) &&
                      (forall s :: s in l.ands ==> fresh(s) && s.name == None)
    ensures r.Ok? ==> var l := r.value; var s := l.Sources();
                      Points(variables, Variables(s.inputs, s.latches, s.ands), l.inputs, l.latches, l.ands)
  {
    var ni, nl, no, na := Count(h.inputs), Count(h.latches), Count(h.outputs), Count(h.ands);
    var front;
    front, variables := ReadFront(lines, ps, h);
    if front.Err? {
      return Err(front.error), variables;
    }
    var ins, lats := front.value.0, front.value.1;
    ghost var refs := EnterAll(EnterAll(map[], Records(ins), Inputs), Records(lats), Latches);

    var read;
    read, variables := ReadSection(lines, Outputs, ps.outputs, 1 + ni + nl, no, ins, lats, ni + nl, variables, refs);
    if read.Err? {
      OutputsFail(lines, ps, h, Records(ins), Records(lats), read.error);
      return Err(read.error), variables;
    }
    var outs := read.value;

    read, variables := ReadSection(lines, Ands, ps.ands, 1 + ni + nl + no, na, ins, lats, ni + nl + no, variables, refs);
    if read.Err? {
      AndsFail(lines, ps, h, Records(ins), Records(lats), Records(outs), read.error);
      return Err(read.error), variables;
    }
    var ands := read.value;
    NumberedConcat(ins + lats, outs, 0);
    NumberedConcat(ins + lats + outs, ands, 0);
    NumberedUnique(ins + lats + outs + ands, 0);
    SectionsRead(lines, ps, h, Records(ins), Records(lats), Records(outs), Records(ands));
    r := Ok(SignalLists(ins, lats, outs, ands));
  }

  /** The body of `AIG.from_file` with the readers of the parts of a
      file as parameters. */
  method Load(lines: seq<string>, rd: Readers) returns (r: Result<Aig, DecodeError>)
    ensures r.Err? <==> DecodeWith(lines, rd).Err?
    ensures r.Err? ==> r.error == DecodeWith(lines, rd).error
    ensures r.Ok? ==> r.value.Denotes(DecodeWith(lines, rd).value) && r.value.Distinct()
  {
    var header := rd.header(LineAt(lines, 0));
    if header.Err? {
      return Err(header.error);
    }
    var h := header.value;
    ghost var goal := DecodeBody(lines, rd.records, rd.classify, h);
    assert DecodeWith(lines, rd) == goal;
    var read, variables := ReadAll(lines, rd.records, h);
    if read.Err? {
      return Err(read.error);
    }
    var l := read.value;
    NoNames(l.inputs);
    NoNames(l.latches);
    NoNames(l.outputs);
    NoNames(l.ands);
    assert goal == NameAll(lines, rd.classify, SymbolStart(h), l.Sources());
    r := NameAndBuild(lines, rd.classify, SymbolStart(h), l.inputs, l.latches, l.outputs, l.ands, variables);
  }

  /** The end of `AIG.from_file`: the symbol table names the new signals
      in place, and the object is built from the lists, the map and the
      comments. */
  method NameAndBuild(lines: seq<string>, classify: Classifier, b: nat,
                      ins: seq<Signal>, lats: seq<Signal>, outs: seq<Signal>, ands: seq<Signal>, variables: map<nat, Signal>)
    returns (r: Result<Aig, DecodeError>)
    requires Unique(ins + lats + outs + ands)
    requires CurrentNames(ins, lats, outs) == Names(Unnamed(|ins|), Unnamed(|lats|), Unnamed(|outs|))
    requires NamesOf(ands) == Unnamed(|ands|)
    requires Points(variables, Variables(Records(ins), Records(lats), Records(ands)), ins, lats, ands)
    modifies ins, lats, outs
    ensures var secs := Sections(Records(ins), Records(lats), Records(outs), Records(ands));
            var v := NameAll(lines, classify, b, secs);
            (r.Err? <==> v.Err?) &&
            (r.Err? ==> r.error == v.error) &&
            (r.Ok? ==> r.value.Denotes(v.value) && r.value.Distinct())
  {
    UniqueConcat(ins + lats + outs, ands);
    ApartThree(ins, lats, outs, ands);
    var comments := NameSignals(lines, classify, b, ins, lats, outs, ands);
    if comments.Err? {
      return Err(comments.error);
    }
    var aig := new Aig(ins, lats, outs, ands, variables, comments.value);
    r := Ok(aig);
  }

  /** `AIG.from_file` on the lines of the file: the AIG object, whose
      lists, names, map and comments are those `Decode` gives, or the
      exception `from_file` raises. */
  method FromLines(lines: seq<string>) returns (r: Result<Aig, DecodeError>)
    ensures r.Err? <==> Decode(lines).Err?
    ensures r.Err? ==> r.error == Decode(lines).error
    ensures r.Ok? ==> r.value.Denotes(Decode(lines).value) && r.value.Distinct()
  {
    r := Load(lines, AigerReaders());
  }
}
