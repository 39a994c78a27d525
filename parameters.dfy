/** The Parameters class of src/Parameters.cpp: the ACS code book, read as blocks of
    lines separated by blank lines and turned into one label-to-code map per coded
    PUMS variable; the age-by-gender mapping of the marginal variables; the origin
    codes by race; and the input file paths. The files are given as their tokenised
    lines (a blank line has no field); opening and tokenising them is not modelled. */
module Parameters {
  import opened Wrappers
  import opened Text
  import opened Acs

  /** One tokenised line of a CSV file. */
  type Columns = seq<string>

  /** std::multimap<std::string, Columns>: the lines stored under each code, in the
      order they were inserted. */
  type CodeBook = map<string, seq<Columns>>

  /** A better-enums enumeration: its constant names, the first one worth first and
      each next one worth one more. */
  datatype Enum = Enum(names: seq<string>, first: int)

  /** _from_string: the value of the first constant with the name; None where
      better-enums throws std::runtime_error. */
  function FromString(e: Enum, s: string): (r: Option<int>)
    ensures r.Some? <==> s in e.names
    ensures r.Some? ==> e.first <= r.value < e.first + |e.names| && e.names[r.value - e.first] == s
    decreases |e.names|
  {
    if e.names == [] then None
    else if e.names[0] == s then Some(e.first)
    else match FromString(Enum(e.names[1..], e.first + 1), s)
      case None => None
      case Some(v) => Some(v)
  }

  /** The value found is that of the first constant with the name. */
  lemma {:induction false} FromStringFirst(e: Enum, s: string, i: int)
    requires FromString(e, s).Some? && 0 <= i < FromString(e, s).value - e.first
    ensures e.names[i] != s
    decreases |e.names|
  {
    if e.names[0] != s && i > 0 {
      var tail := Enum(e.names[1..], e.first + 1);
      FromStringFirst(tail, s, i - 1);
      assert tail.names[i - 1] == e.names[i];
    }
  }

  /** ACS::PumsVar: SERIALNO is 0, ..., RAC1P 8, SCHL 9, HHT 10, HINCP 11. */
  const PumsVarNames: seq<string> :=
    ["SERIALNO", "SPORDER", "PUMA", "ST", "ADJINC", "AGEP", "SEX", "HISP", "RAC1P", "SCHL", "HHT", "HINCP"]
  const RAC1P: int := 8
  const SCHL: int := 9
  const HHT: int := 10
  const HINCP: int := 11

  /** ACS::Sex: Male is 1, Female 2. */
  const SexEnum: Enum := Enum(["Male", "Female"], 1)

  /** ACS::EduAgeCat: Age_18_24 is 1, up to Age_65_Over, 5. */
  const EduAgeCatEnum: Enum := Enum(["Age_18_24", "Age_25_34", "Age_35_44", "Age_45_64", "Age_65_Over"], 1)

  /** ACS::RaceMarginalVar: ORG is 0, then the population columns by sex and age band. */
  const RaceMarginalVarEnum: Enum := Enum(
    ["ORG",
     "POP_M_0_4", "POP_M_5_9", "POP_M_10_14", "POP_M_15_17", "POP_M_18_19", "POP_M_20", "POP_M_21", "POP_M_22_24",
     "POP_M_25_29", "POP_M_30_34", "POP_M_35_39", "POP_M_40_44",
     "POP_M_45_49", "POP_M_50_54", "POP_M_55_59", "POP_M_60_61", "POP_M_62_64",
     "POP_M_65_66", "POP_M_67_69", "POP_M_70_74", "POP_M_75_79", "POP_M_80_84", "POP_M_85_150",
     "POP_F_0_4", "POP_F_5_9", "POP_F_10_14", "POP_F_15_17", "POP_F_18_19", "POP_F_20", "POP_F_21", "POP_F_22_24",
     "POP_F_25_29", "POP_F_30_34", "POP_F_35_39", "POP_F_40_44",
     "POP_F_45_49", "POP_F_50_54", "POP_F_55_59", "POP_F_60_61", "POP_F_62_64",
     "POP_F_65_66", "POP_F_67_69", "POP_F_70_74", "POP_F_75_79", "POP_F_80_84", "POP_F_85_150"], 0)

  // ---------------------------------------------------------------------------
  // The code book

  /** A stored code-book line and the code of its block. */
  datatype Entry = Entry(code: string, line: Columns)

  /** The lines of a block after its first that readACSCodeBookFile stores: the
      non-empty ones, each under the block's code. */
  function Stored(code: string, lines: seq<Columns>): seq<Entry>
    decreases |lines|
  {
    if lines == [] then []
    else
      var l := lines[|lines| - 1];
      Stored(code, lines[..|lines| - 1]) + (if l == [] then [] else [Entry(code, l)])
  }

  /** The stored entries are exactly the non-empty lines, under the block's code. */
  lemma {:induction false} StoredMembers(code: string, lines: seq<Columns>)
    ensures forall e :: e in Stored(code, lines) <==> e.code == code && e.line in lines && e.line != []
    decreases |lines|
  {
    if lines != [] {
      var n := |lines| - 1;
      StoredMembers(code, lines[..n]);
      assert lines == lines[..n] + [lines[n]];
      forall e
        ensures e in Stored(code, lines) <==> e.code == code && e.line in lines && e.line != []
      {
        assert e.line in lines <==> e.line in lines[..n] || e.line == lines[n];
      }
    }
  }

  /** std::multimap::insert of one line under its code: it goes after the lines
      already stored under the code. */
  function InsertEntry(cb: CodeBook, e: Entry): (r: CodeBook)
    ensures r.Keys == cb.Keys + {e.code}
  {
    cb[e.code := (if e.code in cb then cb[e.code] else []) + [e.line]]
  }

  /** The code book after inserting the entries in order. */
  function InsertAll(cb: CodeBook, es: seq<Entry>): CodeBook
    decreases |es|
  {
    if es == [] then cb else InsertEntry(InsertAll(cb, es[..|es| - 1]), es[|es| - 1])
  }

  /** The lines under a code (equal_range): [] when it has none. */
  function Lines(cb: CodeBook, code: string): seq<Columns>
  {
    if code in cb then cb[code] else []
  }

  /** After the inserts, each code holds its old lines followed by the lines of the
      entries under it, in order. */
  lemma {:induction false} InsertAllLines(cb: CodeBook, es: seq<Entry>, code: string)
    ensures Lines(InsertAll(cb, es), code) == Lines(cb, code) + LinesOf(es, code)
    decreases |es|
  {
    if es != [] {
      InsertAllLines(cb, es[..|es| - 1], code);
    }
  }

  /** The lines of the entries under a code, in order. */
  function LinesOf(es: seq<Entry>, code: string): seq<Columns>
    decreases |es|
  {
    if es == [] then []
    else LinesOf(es[..|es| - 1], code) + (if es[|es| - 1].code == code then [es[|es| - 1].line] else [])
  }

  /** Every line of every code is non-empty: what createCodeBookMap's front() and
      back() rely on. */
  ghost predicate NonEmptyLines(cb: CodeBook)
  {
    forall k :: k in cb ==> NoBlank(cb[k])
  }

  /** No line of the run is blank. */
  ghost predicate NoBlank(lines: seq<Columns>)
  {
    forall i :: 0 <= i < |lines| ==> lines[i] != []
  }

  /** The stored entries hold non-empty lines, so inserting them keeps NonEmptyLines. */
  lemma {:induction false} InsertAllNonEmpty(cb: CodeBook, es: seq<Entry>)
    requires NonEmptyLines(cb)
    requires forall i :: 0 <= i < |es| ==> es[i].line != []
    ensures NonEmptyLines(InsertAll(cb, es))
    decreases |es|
  {
    if es != [] {
      InsertAllNonEmpty(cb, es[..|es| - 1]);
    }
  }

  /** The entries a run of lines adds before a failure or the end, followed by the
      other entries. */
  function Then(added: seq<Entry>, r: Result<seq<Entry>>): Result<seq<Entry>>
  {
    match r
    case Success(es) => Success(added + es)
    case Fail(err) => Fail(err)
  }

  /** No entries before a result leave it as it is. */
  lemma ThenNil(r: Result<seq<Entry>>)
    ensures Then([], r) == r
  {
    if r.Success? {
      assert [] + r.value == r.value;
    }
  }

  /** Two runs of entries before a result are their concatenation. */
  lemma ThenAppend(a: seq<Entry>, b: seq<Entry>, r: Result<seq<Entry>>)
    ensures Then(a, Then(b, r)) == Then(a + b, r)
  {
    if r.Success? {
      assert a + (b + r.value) == (a + b) + r.value;
    }
  }

  /** Inserting a non-empty line keeps every line of the code book non-empty. */
  lemma InsertEntryNonEmpty(cb: CodeBook, e: Entry)
    requires NonEmptyLines(cb) && e.line != []
    ensures NonEmptyLines(InsertEntry(cb, e))
  {
    var r := InsertEntry(cb, e);
    forall k, i | k in r && 0 <= i < |r[k]|
      ensures r[k][i] != []
    {
      if k == e.code && k in cb && i < |cb[k]| {
        assert r[k][i] == cb[k][i];
      }
    }
  }

  /** The grouping loop of readACSCodeBookFile, from the given line on with the lines
      of the current block in row: each line joins the row; a blank line closes the
      block, whose first field of its first line is the code of its later non-empty
      lines. A block that opens with a blank line fails (row.front().at(0) throws
      std::out_of_range), and the last block is dropped unless a blank line ends it. */
  function Scan(lines: seq<Columns>, row: seq<Columns>): Result<seq<Entry>>
    decreases |lines|
  {
    if lines == [] then Success([])
    else
      var row' := row + [lines[0]];
      if lines[0] != [] then Scan(lines[1..], row')
      else if row'[0] == [] then Fail(IndexOutOfRange(0))
      else Then(Stored(row'[0][0], row'[1..]), Scan(lines[1..], []))
  }

  /** Lines without a blank one only join the row. */
  lemma {:induction false} ScanNoBlank(block: seq<Columns>, rest: seq<Columns>, row: seq<Columns>)
    requires forall i :: 0 <= i < |block| ==> block[i] != []
    ensures Scan(block + rest, row) == Scan(rest, row + block)
    decreases |block|
  {
    if block != [] {
      assert (block + rest)[1..] == block[1..] + rest;
      ScanNoBlank(block[1..], rest, row + [block[0]]);
      assert row + [block[0]] + block[1..] == row + block;
    } else {
      assert block + rest == rest && row + block == row;
    }
  }

  /** A block closed by a blank line stores its later lines under its code, and the
      scan goes on from an empty row. */
  lemma ScanBlock(block: seq<Columns>, rest: seq<Columns>)
    requires |block| > 0 && forall i :: 0 <= i < |block| ==> block[i] != []
    ensures Scan(block + [[]] + rest, []) == Then(Stored(block[0][0], block[1..]), Scan(rest, []))
  {
    ScanNoBlank(block, [[]] + rest, []);
    assert block + [[]] + rest == block + ([[]] + rest);
    assert ([[]] + rest)[1..] == rest;
    assert ([] + block + [[]])[1..] == block[1..] + [[]];
    StoredBlank(block[0][0], block[1..]);
  }

  /** The blank line that closes a block is not stored. */
  lemma StoredBlank(code: string, lines: seq<Columns>)
    ensures Stored(code, lines + [[]]) == Stored(code, lines)
  {
    assert (lines + [[]])[..|lines|] == lines;
  }

  /** A last block without a closing blank line is never stored. */
  lemma ScanLastBlock(block: seq<Columns>, row: seq<Columns>)
    requires forall i :: 0 <= i < |block| ==> block[i] != []
    ensures Scan(block, row) == Success([])
  {
    ScanNoBlank(block, [], row);
    assert block + [] == block;
  }

  /** The label of a code-book line: its last field. */
  function Label(l: Columns): string
    requires l != []
  {
    l[|l| - 1]
  }

  /** createCodeBookMap over the lines of one variable, in order: each line maps its
      label to std::stoi of its first field; a label seen before keeps its first code
      (std::map::insert does not overwrite); a first field std::stoi rejects fails. */
  function CodeMap(lines: seq<Columns>): (r: Result<map<string, int>>)
    requires forall i :: 0 <= i < |lines| ==> lines[i] != []
    decreases |lines|
  {
    if lines == [] then Success(map[])
    else
      var l := lines[|lines| - 1];
      match CodeMap(lines[..|lines| - 1])
      case Fail(err) => Fail(err)
      case Success(m) =>
        match Stoi(l[0])
        case Fail(err) => Fail(err)
        case Success(v) => Success(if Label(l) in m then m else m[Label(l) := v])
  }

  /** A code map fails exactly when some first field is no integer. */
  lemma {:induction false} CodeMapSuccess(lines: seq<Columns>)
    requires forall i :: 0 <= i < |lines| ==> lines[i] != []
    ensures CodeMap(lines).Success? <==> forall i :: 0 <= i < |lines| ==> Stoi(lines[i][0]).Success?
    decreases |lines|
  {
    if lines != [] {
      var n := |lines| - 1;
      CodeMapSuccess(lines[..n]);
      assert forall i :: 0 <= i < n ==> lines[..n][i] == lines[i];
    }
  }

  /** The labels of a code map are the labels of the lines. */
  lemma {:induction false} CodeMapLabels(lines: seq<Columns>, k: string)
    requires forall i :: 0 <= i < |lines| ==> lines[i] != []
    requires CodeMap(lines).Success?
    ensures k in CodeMap(lines).value <==> exists i :: 0 <= i < |lines| && Label(lines[i]) == k
    decreases |lines|
  {
    if lines != [] {
      var n := |lines| - 1;
      var p := lines[..n];
      CodeMapLabels(p, k);
      if k in CodeMap(p).value {
        var i :| 0 <= i < n && Label(p[i]) == k;
        assert Label(lines[i]) == k;
      }
      if exists i :: 0 <= i < |lines| && Label(lines[i]) == k {
        var i :| 0 <= i < |lines| && Label(lines[i]) == k;
        if i < n {
          assert Label(p[i]) == k;
        }
      }
    }
  }

  /** Each label has the code of the first line that carries it. */
  lemma {:induction false} CodeMapFirstLine(lines: seq<Columns>, i: int)
    requires forall j :: 0 <= j < |lines| ==> lines[j] != []
    requires CodeMap(lines).Success?
    requires 0 <= i < |lines| && forall j :: 0 <= j < i ==> Label(lines[j]) != Label(lines[i])
    ensures Label(lines[i]) in CodeMap(lines).value && Stoi(lines[i][0]).Success?
    ensures CodeMap(lines).value[Label(lines[i])] == Stoi(lines[i][0]).value
    decreases |lines|
  {
    var n := |lines| - 1;
    var p := lines[..n];
    if i < n {
      assert p[i] == lines[i];
      assert forall j :: 0 <= j < i ==> p[j] == lines[j];
      CodeMapFirstLine(p, i);
    } else {
      CodeMapLabels(p, Label(lines[n]));
      assert forall j :: 0 <= j < n ==> p[j] == lines[j];
    }
  }

  /** Once a prefix of the lines fails, the code map fails with the same error. */
  lemma {:induction false} CodeMapFailSticks(lines: seq<Columns>, k: int)
    requires forall i :: 0 <= i < |lines| ==> lines[i] != []
    requires 0 <= k <= |lines| && CodeMap(lines[..k]).Fail?
    ensures CodeMap(lines) == CodeMap(lines[..k])
    decreases |lines|
  {
    if k < |lines| {
      var n := |lines| - 1;
      assert lines[..n][..k] == lines[..k];
      CodeMapFailSticks(lines[..n], k);
    } else {
      assert lines[..k] == lines;
    }
  }

  /** The coded PUMS variables, in the order readACSCodeBookFile maps them. */
  const CodedVars: seq<int> := [RAC1P, SCHL, HHT, HINCP]

  /** std::multimap<int, MapInt>::insert: the map goes after those already stored
      under the variable. */
  function AddCodeMap(ac: map<int, seq<map<string, int>>>, v: int, m: map<string, int>)
    : (r: map<int, seq<map<string, int>>>)
    ensures r.Keys == ac.Keys + {v}
    ensures r[v] == (if v in ac then ac[v] else []) + [m]
    ensures forall w :: w in ac && w != v ==> r[w] == ac[w]
  {
    ac[v := (if v in ac then ac[v] else []) + [m]]
  }

  /** The ACS codes and the code book between the code-map inserts. */
  datatype CodeState = CodeState(acs: map<int, seq<map<string, int>>>, book: CodeBook)

  /** One `m_acsCodes.insert(make_pair(v, createCodeBookMap(v)))`: the code map of the
      variable's lines goes under the variable and the lines leave the code book; a
      failing code map stops everything. */
  function MapStep(t: CodeState, v: int): (r: Result<CodeState>)
    requires NonEmptyLines(t.book) && 0 <= v < |PumsVarNames|
    ensures r.Success? ==> NonEmptyLines(r.value.book)
  {
    match CodeMap(Lines(t.book, PumsVarNames[v]))
    case Fail(err) => Fail(err)
    case Success(m) => Success(CodeState(AddCodeMap(t.acs, v, m), t.book - {PumsVarNames[v]}))
  }

  /** The inserts of the variables in order, or the failure of the first that fails. */
  function MapCoded(s: CodeState, vars: seq<int>): (r: Result<CodeState>)
    requires NonEmptyLines(s.book)
    requires forall i :: 0 <= i < |vars| ==> 0 <= vars[i] < |PumsVarNames|
    ensures r.Success? ==> NonEmptyLines(r.value.book)
    decreases |vars|
  {
    if vars == [] then Success(s)
    else
      match MapStep(s, vars[0])
      case Fail(err) => Fail(err)
      case Success(t) => MapCoded(t, vars[1..])
  }

  /** The names of the variables. */
  function NamesOf(vars: seq<int>): set<string>
    requires forall i :: 0 <= i < |vars| ==> 0 <= vars[i] < |PumsVarNames|
  {
    set i | 0 <= i < |vars| :: PumsVarNames[vars[i]]
  }

  /** Distinct variables have distinct names. */
  lemma PumsVarNamesDistinct(v: int, w: int)
    requires 0 <= v < |PumsVarNames| && 0 <= w < |PumsVarNames|
    ensures PumsVarNames[v] == PumsVarNames[w] ==> v == w
  {
  }

  /** A successful run removes the lines of exactly the inserted variables. */
  lemma {:induction false} MapCodedBook(s: CodeState, vars: seq<int>)
    requires NonEmptyLines(s.book)
    requires forall i :: 0 <= i < |vars| ==> 0 <= vars[i] < |PumsVarNames|
    requires MapCoded(s, vars).Success?
    ensures MapCoded(s, vars).value.book == s.book - NamesOf(vars)
    decreases |vars|
  {
    if vars != [] {
      var t := MapStep(s, vars[0]).value;
      MapCodedBook(t, vars[1..]);
      NamesOfStep(vars);
      RemoveStep(s.book, PumsVarNames[vars[0]], NamesOf(vars[1..]));
    }
  }

  /** The names of a run are that of its first variable and those of the others. */
  lemma NamesOfStep(vars: seq<int>)
    requires forall i :: 0 <= i < |vars| ==> 0 <= vars[i] < |PumsVarNames|
    requires vars != []
    ensures NamesOf(vars) == {PumsVarNames[vars[0]]} + NamesOf(vars[1..])
  {
    assert forall i :: 1 <= i < |vars| ==> vars[1..][i - 1] == vars[i];
    assert forall i :: 0 <= i < |vars| - 1 ==> vars[1..][i] == vars[i + 1];
  }

  /** Removing one code and then a set of codes removes their union. */
  lemma RemoveStep(cb: CodeBook, name: string, names: set<string>)
    ensures cb - {name} - names == cb - ({name} + names)
  {
  }

  /** For distinct variables, each one gets exactly one more map, the code map of its
      lines in the code book at the start; every other variable keeps what it had. */
  lemma {:induction false} MapCodedEntry(s: CodeState, vars: seq<int>, v: int)
    requires NonEmptyLines(s.book)
    requires forall i :: 0 <= i < |vars| ==> 0 <= vars[i] < |PumsVarNames|
    requires forall i, j :: 0 <= i < j < |vars| ==> vars[i] != vars[j]
    requires MapCoded(s, vars).Success?
    ensures v in MapCoded(s, vars).value.acs <==> v in s.acs || v in vars
    ensures v !in vars && v in s.acs ==> MapCoded(s, vars).value.acs[v] == s.acs[v]
    ensures v in vars ==> CodeMap(Lines(s.book, PumsVarNames[v])).Success?
    ensures v in vars ==>
      MapCoded(s, vars).value.acs[v] == (if v in s.acs then s.acs[v] else []) + [CodeMap(Lines(s.book, PumsVarNames[v])).value]
    decreases |vars|
  {
    if vars != [] {
      var t := MapStep(s, vars[0]).value;
      var rest := vars[1..];
      assert forall i, j :: 0 <= i < j < |rest| ==> rest[i] != rest[j] by {
        assert forall i :: 0 <= i < |rest| ==> rest[i] == vars[i + 1];
      }
      MapCodedEntry(t, rest, v);
      assert v in vars <==> v == vars[0] || v in rest;
      if v == vars[0] {
        assert v !in rest by {
          assert forall i :: 0 <= i < |rest| ==> rest[i] == vars[i + 1];
        }
      } else if v in rest {
        PumsVarNamesDistinct(v, vars[0]);
        assert Lines(t.book, PumsVarNames[v]) == Lines(s.book, PumsVarNames[v]);
      }
    }
  }

  // ---------------------------------------------------------------------------
  // The age-by-gender mapping

  /** One row of the age-by-gender file: Gender, Edu_Age_Range, Mar_Age_Range,
      Race_Variable. */
  datatype AgeGenderRow = AgeGenderRow(gender: string, eduAgeRange: string, maritalAgeRange: string, varName: string)

  /** The enumerations readAgeGenderMappingFile reads the names of a row with. */
  datatype AgeGenderEnums = AgeGenderEnums(sex: Enum, raceVar: Enum, eduAge: Enum, maritalAge: Enum)

  /** ACS's Sex, RaceMarginalVar and EduAgeCat, with the given marital age categories. */
  function AcsEnums(maritalAgeCat: Enum): AgeGenderEnums
  {
    AgeGenderEnums(SexEnum, RaceMarginalVarEnum, EduAgeCatEnum, maritalAgeCat)
  }

  /** readAgeGenderMappingFile's key: ten times the sex plus the age range. */
  function AgeGenderKey(sex: int, range: int): int
  {
    10 * sex + range
  }

  /** The key tells sex and range apart while the range is a digit. */
  lemma AgeGenderKeyDecodes(sex: int, range: int)
    requires 0 <= range < 10
    ensures AgeGenderKey(sex, range) / 10 == sex && AgeGenderKey(sex, range) % 10 == range
  {
    assert AgeGenderKey(sex, range) == 10 * sex + range;
  }

  /** The codes of one row: its sex, its race variable, and each age range unless it
      is "NULL". */
  datatype RowCodes = RowCodes(sex: int, raceVar: int, eduAge: Option<int>, maritalAge: Option<int>)

  /** An age range: none for "NULL", otherwise its value; an unknown name fails. */
  function DecodeRange(e: Enum, range: string): (r: Result<Option<int>>)
    ensures r.Success? && r.value.None? <==> range == "NULL"
    ensures r.Success? && r.value.Some? <==> range != "NULL" && range in e.names
  {
    if range == "NULL" then Success(None)
    else
      match FromString(e, range)
      case None => Fail(MissingKey(range))
      case Some(v) => Success(Some(v))
  }

  /** The names of one row read in the order of the source: gender, race variable,
      then each age range that is not "NULL". */
  function DecodeRow(row: AgeGenderRow, en: AgeGenderEnums): Result<RowCodes>
  {
    CombineCodes(row, FromString(en.sex, row.gender), FromString(en.raceVar, row.varName),
      DecodeRange(en.eduAge, row.eduAgeRange), DecodeRange(en.maritalAge, row.maritalAgeRange))
  }

  /** The codes of a row from the values of its names, or the failure of the first
      name that has none. */
  function CombineCodes(row: AgeGenderRow, sex: Option<int>, raceVar: Option<int>,
                        edu: Result<Option<int>>, mar: Result<Option<int>>): (r: Result<RowCodes>)
    ensures r.Success? <==> sex.Some? && raceVar.Some? && edu.Success? && mar.Success?
  {
    if sex.None? then Fail(MissingKey(row.gender))
    else if raceVar.None? then Fail(MissingKey(row.varName))
    else if edu.Fail? then Fail(edu.error)
    else if mar.Fail? then Fail(mar.error)
    else Success(RowCodes(sex.value, raceVar.value, edu.value, mar.value))
  }

  /** A row reads when its gender and race variable are names of their enumerations
      and each age range is "NULL" or a name of its enumeration; the codes are then
      the values of the names. */
  lemma DecodeRowSuccess(row: AgeGenderRow, en: AgeGenderEnums)
    ensures DecodeRow(row, en).Success? <==>
      (&& row.gender in en.sex.names && row.varName in en.raceVar.names
       && (row.eduAgeRange == "NULL" || row.eduAgeRange in en.eduAge.names)
       && (row.maritalAgeRange == "NULL" || row.maritalAgeRange in en.maritalAge.names))
    ensures DecodeRow(row, en).Success? ==>
      var c := DecodeRow(row, en).value;
      && Some(c.sex) == FromString(en.sex, row.gender) && Some(c.raceVar) == FromString(en.raceVar, row.varName)
      && (c.eduAge.None? <==> row.eduAgeRange == "NULL") && (c.eduAge.Some? ==> c.eduAge == FromString(en.eduAge, row.eduAgeRange))
      && (c.maritalAge.None? <==> row.maritalAgeRange == "NULL")
      && (c.maritalAge.Some? ==> c.maritalAge == FromString(en.maritalAge, row.maritalAgeRange))
  {
  }

  /** A row whose names all have values reads as the codes of those values. */
  lemma DecodeRowOf(row: AgeGenderRow, en: AgeGenderEnums, sex: int, raceVar: int, edu: Option<int>, mar: Option<int>)
    requires FromString(en.sex, row.gender) == Some(sex) && FromString(en.raceVar, row.varName) == Some(raceVar)
    requires DecodeRange(en.eduAge, row.eduAgeRange) == Success(edu)
    requires DecodeRange(en.maritalAge, row.maritalAgeRange) == Success(mar)
    ensures DecodeRow(row, en) == Success(RowCodes(sex, raceVar, edu, mar))
  {
  }

  /** The pair an age range of a row adds: key of sex and range to the race
      variable's index less one, nothing for "NULL". */
  function RangePair(sex: int, raceVar: int, range: Option<int>): multiset<(int, int)>
  {
    if range.None? then multiset{} else multiset{(AgeGenderKey(sex, range.value), raceVar - 1)}
  }

  /** The education and marital mappings. */
  datatype AgeGenderMaps = AgeGenderMaps(education: multiset<(int, int)>, marital: multiset<(int, int)>)

  /** Every row read. */
  function DecodeRows(rows: seq<AgeGenderRow>, en: AgeGenderEnums): (cs: seq<Result<RowCodes>>)
    ensures |cs| == |rows| && forall i :: 0 <= i < |rows| ==> cs[i] == DecodeRow(rows[i], en)
  {
    seq(|rows|, i requires 0 <= i < |rows| => DecodeRow(rows[i], en))
  }

  /** The mappings after all the read rows have been added to init, or the failure
      of the first row that fails. */
  function AgeGenderPairs(init: AgeGenderMaps, cs: seq<Result<RowCodes>>): Result<AgeGenderMaps>
    decreases |cs|
  {
    if cs == [] then Success(init)
    else AddRow(AgeGenderPairs(init, cs[..|cs| - 1]), cs[|cs| - 1])
  }

  /** The mappings after one more row: its pairs, or the first failure. */
  function AddRow(ps: Result<AgeGenderMaps>, c: Result<RowCodes>): Result<AgeGenderMaps>
  {
    if ps.Fail? then ps
    else if c.Fail? then Fail(c.error)
    else Success(RowPairs(ps.value, c.value))
  }

  /** The mappings with the pairs of one read row added. */
  function RowPairs(ms: AgeGenderMaps, c: RowCodes): AgeGenderMaps
  {
    AgeGenderMaps(ms.education + RangePair(c.sex, c.raceVar, c.eduAge), ms.marital + RangePair(c.sex, c.raceVar, c.maritalAge))
  }

  /** The mappings fail exactly when some row has a name its enumeration lacks. */
  lemma {:induction false} AgeGenderPairsSuccess(init: AgeGenderMaps, cs: seq<Result<RowCodes>>)
    ensures AgeGenderPairs(init, cs).Success? <==> forall i :: 0 <= i < |cs| ==> cs[i].Success?
    decreases |cs|
  {
    if cs != [] {
      var n := |cs| - 1;
      var p := cs[..n];
      AgeGenderPairsSuccess(init, p);
      AllSuccessStep(cs, p);
    }
  }

  /** Every row of cs reads exactly when every row of its prefix p does and the last
      one does. */
  lemma AllSuccessStep(cs: seq<Result<RowCodes>>, p: seq<Result<RowCodes>>)
    requires cs != [] && p == cs[..|cs| - 1]
    ensures (forall i :: 0 <= i < |cs| ==> cs[i].Success?) <==>
      (forall i :: 0 <= i < |p| ==> p[i].Success?) && cs[|cs| - 1].Success?
  {
    assert forall i :: 0 <= i < |p| ==> p[i] == cs[i];
  }

  /** The education range of a row, or its marital one. */
  function RangeOf(c: RowCodes, marital: bool): Option<int>
  {
    if marital then c.maritalAge else c.eduAge
  }

  /** The education mapping, or the marital one. */
  function Mapping(ms: AgeGenderMaps, marital: bool): multiset<(int, int)>
  {
    if marital then ms.marital else ms.education
  }

  /** Whether a row reads and gives the pair under its education range (or its
      marital one): the range is not "NULL", the key is that of the row's sex and
      range, and the value is its race variable's index less one. */
  predicate GivesPair(c: Result<RowCodes>, marital: bool, key: int, value: int)
  {
    && c.Success? && RangeOf(c.value, marital).Some?
    && key == AgeGenderKey(c.value.sex, RangeOf(c.value, marital).value)
    && value == c.value.raceVar - 1
  }

  /** One more row adds its pair under the chosen range to the mapping. */
  lemma MappingStep(init: AgeGenderMaps, cs: seq<Result<RowCodes>>, marital: bool)
    requires cs != [] && AgeGenderPairs(init, cs).Success?
    ensures AgeGenderPairs(init, cs[..|cs| - 1]).Success? && cs[|cs| - 1].Success?
    ensures Mapping(AgeGenderPairs(init, cs).value, marital)
      == Mapping(AgeGenderPairs(init, cs[..|cs| - 1]).value, marital)
         + RangePair(cs[|cs| - 1].value.sex, cs[|cs| - 1].value.raceVar, RangeOf(cs[|cs| - 1].value, marital))
  {
  }

  /** The pair a row adds is the one it gives. */
  lemma RangePairGives(c: Result<RowCodes>, marital: bool, key: int, value: int)
    requires c.Success?
    ensures (key, value) in RangePair(c.value.sex, c.value.raceVar, RangeOf(c.value, marital)) <==> GivesPair(c, marital, key, value)
  {
  }

  /** Some row of cs gives the pair exactly when some row of its prefix p does or the
      last one does. */
  lemma GivesPairStep(cs: seq<Result<RowCodes>>, p: seq<Result<RowCodes>>, marital: bool, key: int, value: int)
    requires cs != [] && p == cs[..|cs| - 1]
    ensures (exists i :: 0 <= i < |cs| && GivesPair(cs[i], marital, key, value)) <==>
      (exists i :: 0 <= i < |p| && GivesPair(p[i], marital, key, value))
      || GivesPair(cs[|cs| - 1], marital, key, value)
  {
    var n := |p|;
    if exists i :: 0 <= i < |cs| && GivesPair(cs[i], marital, key, value) {
      var i :| 0 <= i < |cs| && GivesPair(cs[i], marital, key, value);
      if i < n { assert p[i] == cs[i]; }
    }
    if exists i :: 0 <= i < n && GivesPair(p[i], marital, key, value) {
      var i :| 0 <= i < n && GivesPair(p[i], marital, key, value);
      assert p[i] == cs[i];
    }
  }

  /** The education mapping holds exactly the pairs it held before and those of the
      rows whose education range is not "NULL"; the marital mapping likewise with
      the rows whose marital range is not "NULL". */
  lemma {:induction false} AgeGenderPairsMembers(init: AgeGenderMaps, cs: seq<Result<RowCodes>>, marital: bool,
                                                 key: int, value: int)
    requires AgeGenderPairs(init, cs).Success?
    ensures (key, value) in Mapping(AgeGenderPairs(init, cs).value, marital) <==>
      (key, value) in Mapping(init, marital) || exists i :: 0 <= i < |cs| && GivesPair(cs[i], marital, key, value)
    decreases |cs|
  {
    if cs != [] {
      var n := |cs| - 1;
      MappingStep(init, cs, marital);
      AgeGenderPairsMembers(init, cs[..n], marital, key, value);
      RangePairGives(cs[n], marital, key, value);
      GivesPairStep(cs, cs[..n], marital, key, value);
    }
  }

  /** One more row of the file is one more row for AddRow. */
  lemma AgeGenderPairsStep(init: AgeGenderMaps, cs: seq<Result<RowCodes>>, i: int)
    requires 0 <= i < |cs|
    ensures AgeGenderPairs(init, cs[..i + 1]) == AddRow(AgeGenderPairs(init, cs[..i]), cs[i])
  {
    assert cs[..i + 1][..i] == cs[..i];
  }

  /** A failure passes through one more row. */
  lemma AddRowFail(ps: Result<AgeGenderMaps>, c: Result<RowCodes>)
    requires ps.Fail?
    ensures AddRow(ps, c) == ps
  {
  }

  /** Once a prefix of the rows fails, every longer prefix fails with the same
      error. */
  lemma {:induction false} AgeGenderPairsFailSticks(init: AgeGenderMaps, cs: seq<Result<RowCodes>>, k: int, j: int)
    requires 0 <= k <= j <= |cs| && AgeGenderPairs(init, cs[..k]).Fail?
    ensures AgeGenderPairs(init, cs[..j]) == AgeGenderPairs(init, cs[..k])
    decreases j
  {
    if k < j {
      AgeGenderPairsFailSticks(init, cs, k, j - 1);
      AgeGenderPairsFailStep(init, cs, j);
    }
  }

  /** A failed prefix stays failed with one more row. */
  lemma AgeGenderPairsFailStep(init: AgeGenderMaps, cs: seq<Result<RowCodes>>, j: int)
    requires 0 < j <= |cs| && AgeGenderPairs(init, cs[..j - 1]).Fail?
    ensures AgeGenderPairs(init, cs[..j]) == AgeGenderPairs(init, cs[..j - 1])
  {
    AgeGenderPairsStep(init, cs, j - 1);
    AddRowFail(AgeGenderPairs(init, cs[..j - 1]), cs[j - 1]);
  }

  // ---------------------------------------------------------------------------
  // The origin list

  /** readOriginListFile over the rows after the header: each row maps its first
      field to std::stoi of its last; a race already mapped keeps its code
      (std::unordered_map::insert does not overwrite). */
  function OriginMap(m: map<string, int>, rows: seq<Columns>): Result<map<string, int>>
    requires forall i :: 0 <= i < |rows| ==> rows[i] != []
    decreases |rows|
  {
    if rows == [] then Success(m)
    else
      var row := rows[|rows| - 1];
      match OriginMap(m, rows[..|rows| - 1])
      case Fail(err) => Fail(err)
      case Success(r) =>
        match Stoi(Label(row))
        case Fail(err) => Fail(err)
        case Success(v) => Success(if row[0] in r then r else r[row[0] := v])
  }

  /** The origin map fails exactly when some last field is no integer. */
  lemma {:induction false} OriginMapSuccess(m: map<string, int>, rows: seq<Columns>)
    requires forall i :: 0 <= i < |rows| ==> rows[i] != []
    ensures OriginMap(m, rows).Success? <==> forall i :: 0 <= i < |rows| ==> Stoi(Label(rows[i])).Success?
    decreases |rows|
  {
    if rows != [] {
      var n := |rows| - 1;
      OriginMapSuccess(m, rows[..n]);
      assert forall i :: 0 <= i < n ==> rows[..n][i] == rows[i];
    }
  }

  /** The origin map keeps the old entries and adds the first field of every row. */
  lemma {:induction false} OriginMapKeys(m: map<string, int>, rows: seq<Columns>, k: string)
    requires forall i :: 0 <= i < |rows| ==> rows[i] != []
    requires OriginMap(m, rows).Success?
    ensures k in OriginMap(m, rows).value <==> k in m || exists i :: 0 <= i < |rows| && rows[i][0] == k
    ensures k in m ==> OriginMap(m, rows).value[k] == m[k]
    decreases |rows|
  {
    if rows != [] {
      var n := |rows| - 1;
      var p := rows[..n];
      OriginMapKeys(m, p, k);
      if k in OriginMap(m, p).value && k !in m {
        var i :| 0 <= i < n && p[i][0] == k;
        assert rows[i][0] == k;
      }
      if exists i :: 0 <= i < |rows| && rows[i][0] == k {
        var i :| 0 <= i < |rows| && rows[i][0] == k;
        if i < n {
          assert p[i][0] == k;
        }
      }
    }
  }

  /** A race that was not mapped gets the code of the first row that names it. */
  lemma {:induction false} OriginMapFirstRow(m: map<string, int>, rows: seq<Columns>, i: int)
    requires forall j :: 0 <= j < |rows| ==> rows[j] != []
    requires OriginMap(m, rows).Success?
    requires 0 <= i < |rows| && rows[i][0] !in m && forall j :: 0 <= j < i ==> rows[j][0] != rows[i][0]
    ensures rows[i][0] in OriginMap(m, rows).value && Stoi(Label(rows[i])).Success?
    ensures OriginMap(m, rows).value[rows[i][0]] == Stoi(Label(rows[i])).value
    decreases |rows|
  {
    var n := |rows| - 1;
    var p := rows[..n];
    if i < n {
      assert p[i] == rows[i];
      assert forall j :: 0 <= j < i ==> p[j] == rows[j];
      OriginMapFirstRow(m, p, i);
    } else {
      OriginMapKeys(m, p, rows[n][0]);
      assert forall j :: 0 <= j < n ==> p[j] == rows[j];
    }
  }

  /** Once a prefix of the rows fails, the origin map fails with the same error. */
  lemma {:induction false} OriginMapFailSticks(m: map<string, int>, rows: seq<Columns>, k: int)
    requires forall i :: 0 <= i < |rows| ==> rows[i] != []
    requires 0 <= k <= |rows| && OriginMap(m, rows[..k]).Fail?
    ensures OriginMap(m, rows) == OriginMap(m, rows[..k])
    decreases |rows|
  {
    if k < |rows| {
      var n := |rows| - 1;
      assert rows[..n][..k] == rows[..k];
      OriginMapFailSticks(m, rows[..n], k);
    } else {
      assert rows[..k] == rows;
    }
  }

  // ---------------------------------------------------------------------------
  // The class

  class Parameters {
    const inputDir: string
    const outputDir: string
    var codeBook: CodeBook
    var acsCodes: map<int, seq<map<string, int>>>
    var eduAgeGender: multiset<(int, int)>
    var maritalAgeGender: multiset<(int, int)>
    var originByRace: map<string, int>

    /** The code book holds only non-empty lines. */
    ghost predicate Valid()
      reads this
    {
      NonEmptyLines(codeBook)
    }

    /** The directories, and nothing read yet. */
    constructor (inDir: string, outDir: string)
      ensures inputDir == inDir && outputDir == outDir && Valid()
      ensures codeBook == map[] && acsCodes == map[] && originByRace == map[]
      ensures eduAgeGender == multiset{} && maritalAgeGender == multiset{}
    {
      inputDir, outputDir := inDir, outDir;
      codeBook, acsCodes, originByRace := map[], map[], map[];
      eduAgeGender, maritalAgeGender := multiset{}, multiset{};
    }

    /** getFilePath: the input directory followed by the file name. */
    function FilePath(name: string): (r: string)
      ensures |r| == |inputDir| + |name|
      ensures r[..|inputDir|] == inputDir && r[|inputDir|..] == name
    {
      inputDir + name
    }

    /** Distinct file names give distinct paths. */
    lemma FilePathInjective(a: string, b: string)
      requires FilePath(a) == FilePath(b)
      ensures a == b
    {
      assert a == FilePath(a)[|inputDir|..];
    }

    /** getAgeGenderMapping: the education or the marital mapping, and an empty one
        for any other estimate type. */
    function AgeGenderMapping(estimate: Estimates): (r: multiset<(int, int)>)
      reads this
      ensures estimate != EstEducation && estimate != EstMarital ==> r == multiset{}
      ensures estimate == EstEducation ==> r == eduAgeGender
      ensures estimate == EstMarital ==> r == maritalAgeGender
    {
      match estimate
      case EstEducation => eduAgeGender
      case EstMarital => maritalAgeGender
      case _ => multiset{}
    }

    /** The grouping loop of readACSCodeBookFile: the entries of every block a blank
        line closes go into the code book, until a block opens with a blank line. */
    method GroupCodeBook(lines: seq<Columns>) returns (error: Option<Failure>)
      requires Valid()
      modifies this`codeBook
      ensures Valid()
      ensures error.Some? <==> Scan(lines, []).Fail?
      ensures error.Some? ==> error.value == Scan(lines, []).error
      ensures error.None? ==> codeBook == InsertAll(old(codeBook), Scan(lines, []).value)
    {
      var row: seq<Columns> := [];
      ghost var added: seq<Entry> := [];
      var i := 0;
      assert lines[0..] == lines;
      ThenNil(Scan(lines, []));
      while i < |lines|
        invariant 0 <= i <= |lines|
        invariant Valid()
        invariant Scan(lines, []) == Then(added, Scan(lines[i..], row))
        invariant codeBook == InsertAll(old(codeBook), added)
      {
        var col := lines[i];
        assert lines[i..][1..] == lines[i + 1..];
        row := row + [col];
        if col == [] {
          if row[0] == [] {
            error := Some(IndexOutOfRange(0));
            return;
          }
          ghost var stored := Stored(row[0][0], row[1..]);
          ThenAppend(added, stored, Scan(lines[i + 1..], []));
          codeBook := InsertBlock(codeBook, row[0][0], row[1..]);
          InsertAllAppend(old(codeBook), added, stored);
          added := added + stored;
          row := [];
        }
        i := i + 1;
      }
      error := None;
      assert added + [] == added;
      assert lines[i..] == [];
    }

    /** createCodeBookMap: the code map of the variable's lines, after which the
        variable's lines leave the code book; a first field std::stoi rejects
        throws before the erase. */
    method CreateCodeBookMap(v: int) returns (r: Result<map<string, int>>)
      requires 0 <= v < |PumsVarNames| && Valid()
      modifies this`codeBook
      ensures Valid()
      ensures r == CodeMap(Lines(old(codeBook), PumsVarNames[v]))
      ensures codeBook == if r.Success? then old(codeBook) - {PumsVarNames[v]} else old(codeBook)
    {
      var str := PumsVarNames[v];
      var its := Lines(codeBook, str);
      assert forall j :: 0 <= j < |its| ==> its[j] != [];
      var m: map<string, int> := map[];
      var i := 0;
      while i < |its|
        invariant 0 <= i <= |its|
        invariant CodeMap(its[..i]) == Success(m)
      {
        assert its[..i + 1][..i] == its[..i];
        var key := its[i][|its[i]| - 1];
        var val := Stoi(its[i][0]);
        if val.Fail? {
          CodeMapFailSticks(its, i + 1);
          r := Fail(val.error);
          return;
        }
        if key !in m {
          m := m[key := val.value];
        }
        i := i + 1;
      }
      assert its[..i] == its;
      codeBook := codeBook - {str};
      r := Success(m);
    }

    /** One `m_acsCodes.insert(make_pair(v, createCodeBookMap(v)))` of
        readACSCodeBookFile, the first of the inserts of vars. */
    method InsertCodeBookMap(v: int, ghost vars: seq<int>) returns (error: Option<Failure>)
      requires 0 <= v < |PumsVarNames| && Valid()
      requires forall i :: 0 <= i < |vars| ==> 0 <= vars[i] < |PumsVarNames|
      requires vars != [] && vars[0] == v
      modifies this`codeBook, this`acsCodes
      ensures Valid()
      ensures error.Some? ==> MapCoded(CodeState(old(acsCodes), old(codeBook)), vars) == Fail(error.value)
      ensures error.None? ==>
        MapCoded(CodeState(old(acsCodes), old(codeBook)), vars) == MapCoded(CodeState(acsCodes, codeBook), vars[1..])
    {
      var m := CreateCodeBookMap(v);
      if m.Fail? {
        error := Some(m.error);
        return;
      }
      acsCodes := AddCodeMap(acsCodes, v, m.value);
      error := None;
    }

    /** readACSCodeBookFile over the code-book file's lines: the blocks go into the
        code book, then the code maps of the coded variables into the ACS codes. */
    method ReadACSCodeBookFile(lines: seq<Columns>) returns (error: Option<Failure>)
      requires Valid()
      modifies this`codeBook, this`acsCodes
      ensures Valid()
      ensures Scan(lines, []).Fail? ==> error == Some(Scan(lines, []).error)
      ensures Scan(lines, []).Success? ==> NonEmptyLines(InsertAll(old(codeBook), Scan(lines, []).value))
      ensures Scan(lines, []).Success? ==>
        var r := MapCoded(CodeState(old(acsCodes), InsertAll(old(codeBook), Scan(lines, []).value)), CodedVars);
        && (error.None? <==> r.Success?)
        && (r.Fail? ==> error == Some(r.error))
        && (r.Success? ==> acsCodes == r.value.acs && codeBook == r.value.book)
    {
      error := GroupCodeBook(lines);
      if error.Some? {
        return;
      }
      error := InsertCodeBookMaps();
    }

    /** The four inserts of readACSCodeBookFile: the code maps of RAC1P, SCHL, HHT and
        HINCP, each taking its variable's lines out of the code book. */
    method InsertCodeBookMaps() returns (error: Option<Failure>)
      requires Valid()
      modifies this`codeBook, this`acsCodes
      ensures Valid()
      ensures var r := MapCoded(CodeState(old(acsCodes), old(codeBook)), CodedVars);
        && (error.None? <==> r.Success?)
        && (r.Fail? ==> error == Some(r.error))
        && (r.Success? ==> acsCodes == r.value.acs && codeBook == r.value.book)
    {
      error := InsertCodeBookMap(RAC1P, [RAC1P, SCHL, HHT, HINCP]);
      if error.Some? {
        return;
      }
      error := InsertCodeBookMap(SCHL, [SCHL, HHT, HINCP]);
      if error.Some? {
        return;
      }
      error := InsertCodeBookMap(HHT, [HHT, HINCP]);
      if error.Some? {
        return;
      }
      error := InsertCodeBookMap(HINCP, [HINCP]);
    }

    /** One row of readAgeGenderMappingFile: its gender and race variable are read,
        then its education range unless it is "NULL", whose pair goes into the
        education mapping, then likewise its marital range; a name without a value
        throws, and which pairs were added by then is not specified. */
    method ReadAgeGenderRow(row: AgeGenderRow, en: AgeGenderEnums) returns (error: Option<Failure>)
      modifies this`eduAgeGender, this`maritalAgeGender
      ensures var c := DecodeRow(row, en);
        && (error.None? <==> c.Success?)
        && (c.Fail? ==> error == Some(c.error))
        && (c.Success? ==> AgeGenderMaps(eduAgeGender, maritalAgeGender)
                           == RowPairs(AgeGenderMaps(old(eduAgeGender), old(maritalAgeGender)), c.value))
    {
      var sex := FromString(en.sex, row.gender);
      if sex.None? {
        assert DecodeRow(row, en) == Fail(MissingKey(row.gender));
        return Some(MissingKey(row.gender));
      }
      var raceVarIdx := FromString(en.raceVar, row.varName);
      if raceVarIdx.None? {
        assert DecodeRow(row, en) == Fail(MissingKey(row.varName));
        return Some(MissingKey(row.varName));
      }
      ghost var eduRange: Option<int> := None;
      if row.eduAgeRange != "NULL" {
        var eduAge := FromString(en.eduAge, row.eduAgeRange);
        if eduAge.None? {
          assert DecodeRow(row, en) == Fail(MissingKey(row.eduAgeRange));
          return Some(MissingKey(row.eduAgeRange));
        }
        eduAgeGender := eduAgeGender + multiset{(AgeGenderKey(sex.value, eduAge.value), raceVarIdx.value - 1)};
        eduRange := eduAge;
      }
      assert DecodeRange(en.eduAge, row.eduAgeRange) == Success(eduRange);
      assert eduAgeGender == old(eduAgeGender) + RangePair(sex.value, raceVarIdx.value, eduRange);
      ghost var marRange: Option<int> := None;
      if row.maritalAgeRange != "NULL" {
        var marAge := FromString(en.maritalAge, row.maritalAgeRange);
        if marAge.None? {
          assert DecodeRow(row, en) == Fail(MissingKey(row.maritalAgeRange));
          return Some(MissingKey(row.maritalAgeRange));
        }
        maritalAgeGender := maritalAgeGender + multiset{(AgeGenderKey(sex.value, marAge.value), raceVarIdx.value - 1)};
        marRange := marAge;
      }
      assert DecodeRange(en.maritalAge, row.maritalAgeRange) == Success(marRange);
      DecodeRowOf(row, en, sex.value, raceVarIdx.value, eduRange, marRange);
      assert maritalAgeGender == old(maritalAgeGender) + RangePair(sex.value, raceVarIdx.value, marRange);
      error := None;
    }

    /** readAgeGenderMappingFile over the rows after the header, read with the
        enumerations en (the source reads with AcsEnums of its marital age
        categories): the pairs of every row are added to both mappings, or the first
        row with a name its enumeration lacks fails. */
    method ReadAgeGenderMappingFile(rows: seq<AgeGenderRow>, en: AgeGenderEnums) returns (error: Option<Failure>)
      modifies this`eduAgeGender, this`maritalAgeGender
      ensures var r := AgeGenderPairs(AgeGenderMaps(old(eduAgeGender), old(maritalAgeGender)),
                                      DecodeRows(rows, en));
        && (error.None? <==> r.Success?)
        && (r.Fail? ==> error == Some(r.error))
        && (r.Success? ==> eduAgeGender == r.value.education && maritalAgeGender == r.value.marital)
    {
      ghost var cs := DecodeRows(rows, en);
      ghost var init := AgeGenderMaps(eduAgeGender, maritalAgeGender);
      var i := 0;
      while i < |rows|
        invariant 0 <= i <= |rows|
        invariant AgeGenderPairs(init, cs[..i]) == Success(AgeGenderMaps(eduAgeGender, maritalAgeGender))
      {
        AgeGenderPairsStep(init, cs, i);
        assert cs[i] == DecodeRow(rows[i], en);
        error := ReadAgeGenderRow(rows[i], en);
        if error.Some? {
          AgeGenderPairsFailSticks(init, cs, i + 1, |cs|);
          assert cs[..|cs|] == cs;
          return;
        }
        i := i + 1;
      }
      assert cs[..i] == cs;
      error := None;
    }

    /** readOriginListFile over the rows of the origin file: the header row goes, then
        each row maps its first field to std::stoi of its last unless the race is
        mapped already. */
    method ReadOriginListFile(rows: seq<Columns>) returns (error: Option<Failure>)
      requires |rows| >= 1
      requires forall i :: 1 <= i < |rows| ==> rows[i] != []
      modifies this`originByRace
      ensures error.None? <==> OriginMap(old(originByRace), rows[1..]).Success?
      ensures error.Some? ==> error.value == OriginMap(old(originByRace), rows[1..]).error
      ensures error.None? ==> originByRace == OriginMap(old(originByRace), rows[1..]).value
    {
      var originList := rows[1..];
      assert forall j :: 0 <= j < |originList| ==> originList[j] != [];
      var i := 0;
      while i < |originList|
        invariant 0 <= i <= |originList|
        invariant OriginMap(old(originByRace), originList[..i]) == Success(originByRace)
      {
        var row := originList[i];
        assert originList[..i + 1][..i] == originList[..i];
        var code := Stoi(row[|row| - 1]);
        if code.Fail? {
          OriginMapFailSticks(old(originByRace), originList, i + 1);
          error := Some(code.error);
          return;
        }
        if row[0] !in originByRace {
          originByRace := originByRace[row[0] := code.value];
        }
        i := i + 1;
      }
      assert originList[..i] == originList;
      error := None;
    }
  }

  /** The inner loop of readACSCodeBookFile: the non-empty lines of a block after its
      first go into the code book under the block's code. */
  method InsertBlock(cb: CodeBook, code: string, lines: seq<Columns>) returns (r: CodeBook)
    requires NonEmptyLines(cb)
    ensures NonEmptyLines(r)
    ensures r == InsertAll(cb, Stored(code, lines))
  {
    r := cb;
    var k := 0;
    while k < |lines|
      invariant 0 <= k <= |lines|
      invariant NonEmptyLines(r)
      invariant r == InsertAll(cb, Stored(code, lines[..k]))
    {
      StoredStep(code, lines, k);
      if lines[k] != [] {
        var e := Entry(code, lines[k]);
        InsertEntryNonEmpty(r, e);
        InsertAllStep(cb, Stored(code, lines[..k]), e);
        r := InsertEntry(r, e);
      } else {
        assert Stored(code, lines[..k]) + [] == Stored(code, lines[..k]);
      }
      k := k + 1;
    }
    assert lines[..k] == lines;
  }

  /** One more line of the block stores one more entry unless it is blank. */
  lemma StoredStep(code: string, lines: seq<Columns>, k: int)
    requires 0 <= k < |lines|
    ensures Stored(code, lines[..k + 1])
      == Stored(code, lines[..k]) + (if lines[k] == [] then [] else [Entry(code, lines[k])])
  {
    assert lines[..k + 1][..k] == lines[..k];
  }

  /** Inserting one more entry inserts it after the others. */
  lemma InsertAllStep(cb: CodeBook, es: seq<Entry>, e: Entry)
    ensures InsertAll(cb, es + [e]) == InsertEntry(InsertAll(cb, es), e)
  {
    assert (es + [e])[..|es|] == es;
  }

  /** Inserting two runs of entries is inserting the second after the first. */
  lemma {:induction false} InsertAllAppend(cb: CodeBook, a: seq<Entry>, b: seq<Entry>)
    ensures InsertAll(cb, a + b) == InsertAll(InsertAll(cb, a), b)
    decreases |b|
  {
    if b != [] {
      var n := |b| - 1;
      assert (a + b)[..|a + b| - 1] == a + b[..n];
      InsertAllAppend(cb, a, b[..n]);
    } else {
      assert a + b == a;
    }
  }
}
