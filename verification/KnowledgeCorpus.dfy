/** The knowledge corpus: built from documents, printed as one JSON line a record, loaded
    and checked again. */
module KnowledgeCorpus {
  import opened Options
  import opened JsonText
  import WhiteSpace = Text

  const SCHEMA_VERSION := 1
  const MAX_SPAN := 200

  datatype Kind = Product | Policy
  datatype Section = Section(id: Text, heading: Text, text: Text)
  datatype Document = Document(
    id: Text, kind: Kind, title: Text, shortTitle: Text, productCode: Option<Text>, sections: seq<Section>)

  /** A record before it is stamped with the snapshot it belongs to. */
  datatype Record = Record(id: Text, document: Document, section: Section)

  datatype Field =
    | Citation | DocId | Heading | KindOf | ProductCode | SectionId | ShortTitle | SnapshotId | TextSpan | Title

  function Name(f: Field): Text {
    match f
    case Citation => Ascii("citation")
    case DocId => Ascii("doc_id")
    case Heading => Ascii("heading")
    case KindOf => Ascii("kind")
    case ProductCode => Ascii("product_code")
    case SectionId => Ascii("section_id")
    case ShortTitle => Ascii("short_title")
    case SnapshotId => Ascii("snapshot_id")
    case TextSpan => Ascii("text_span")
    case Title => Ascii("title")
  }

  const GROUNDED: seq<Field> := [DocId, SectionId, ShortTitle, SnapshotId, TextSpan]

  predicate Blank(t: Text) {
    forall i :: 0 <= i < |t| ==> WhiteSpace.IsSpace(t[i])
  }

  predicate AlphaNumeric(c: Code) {
    0x41 <= c <= 0x5A || 0x61 <= c <= 0x7A || 0x30 <= c <= 0x39
  }

  predicate LowerOrDigit(c: Code) {
    0x61 <= c <= 0x7A || 0x30 <= c <= 0x39
  }

  /** `$` also matches in front of a newline that ends the text. */
  function WithoutFinalNewline(t: Text): Text {
    if t != [] && t[|t| - 1] == NEWLINE then t[..|t| - 1] else t
  }

  predicate IsRecordId(t: Text) {
    var body := WithoutFinalNewline(t);
    && 1 <= |body| <= 63 && AlphaNumeric(body[0])
    && forall i :: 0 <= i < |body| ==> AlphaNumeric(body[i]) || body[i] == 0x5F || body[i] == 0x2D
  }

  predicate IsSectionId(t: Text) {
    var body := WithoutFinalNewline(t);
    && 1 <= |body| <= 30 && LowerOrDigit(body[0])
    && forall i :: 0 <= i < |body| ==> LowerOrDigit(body[i]) || body[i] == 0x2D
  }

  predicate Distinct(s: seq<Text>) {
    forall i, j :: 0 <= i < j < |s| ==> s[i] != s[j]
  }

  // -------------------------------------------------------------------- build

  function RecordOf(d: Document, s: Section): Record {
    Record(d.id + [0x2D] + s.id, d, s)
  }

  function RecordsOf(d: Document, n: nat): seq<Record>
    requires n <= |d.sections|
  {
    if n == 0 then [] else RecordsOf(d, n - 1) + [RecordOf(d, d.sections[n - 1])]
  }

  function Records(documents: seq<Document>): seq<Record> {
    if documents == [] then []
    else
      var n := |documents| - 1;
      Records(documents[..n]) + RecordsOf(documents[n], |documents[n].sections|)
  }

  function SectionIds(d: Document): (ids: seq<Text>)
    ensures |ids| == |d.sections|
  {
    seq(|d.sections|, i requires 0 <= i < |d.sections| => d.sections[i].id)
  }

  function RecordIds(records: seq<Record>): (ids: seq<Text>)
    ensures |ids| == |records|
  {
    seq(|records|, i requires 0 <= i < |records| => records[i].id)
  }

  predicate SectionOk(d: Document, s: Section) {
    IsSectionId(s.id) && |s.text| <= MAX_SPAN && IsRecordId(RecordOf(d, s).id)
  }

  predicate DocumentOk(d: Document) {
    Distinct(SectionIds(d)) && forall s <- d.sections :: SectionOk(d, s)
  }

  /** Exactly when the builder accepts the documents. */
  predicate Buildable(documents: seq<Document>) {
    (forall d <- documents :: DocumentOk(d)) && Distinct(RecordIds(Records(documents)))
  }

  datatype BuildError = DuplicateSection | InvalidSectionId | SpanTooLong | InvalidRecordId | DuplicateRecord
  datatype Built = Built(records: seq<Record>) | BuildFailed(error: BuildError)

  /** The first thing that is wrong with a section. */
  predicate Wrong(d: Document, s: Section, error: BuildError) {
    match error
    case InvalidSectionId => !IsSectionId(s.id)
    case SpanTooLong => IsSectionId(s.id) && |s.text| > MAX_SPAN
    case InvalidRecordId => IsSectionId(s.id) && |s.text| <= MAX_SPAN && !IsRecordId(d.id + [0x2D] + s.id)
    case _ => false
  }

  /** Why a document is refused: its first section with something wrong, unless two of its
      sections share their id. */
  ghost predicate Refused(d: Document, error: BuildError) {
    if error == DuplicateSection then !Distinct(SectionIds(d))
    else Distinct(SectionIds(d)) && exists j :: 0 <= j < |d.sections| && FirstWrong(d, j, error)
  }

  ghost predicate FirstWrong(d: Document, j: nat, error: BuildError)
    requires j < |d.sections|
  {
    (forall s <- d.sections[..j] :: SectionOk(d, s)) && Wrong(d, d.sections[j], error)
  }

  /** The builder's loops; it raises rather than truncate a section. */
  method DocumentRecords(d: Document) returns (r: Built)
    ensures r.Built? <==> DocumentOk(d)
    ensures r.Built? ==> r.records == RecordsOf(d, |d.sections|)
    ensures r.BuildFailed? ==> Refused(d, r.error) && r.error != DuplicateRecord
  {
    hide SectionOk, Distinct;
    if !Distinct(SectionIds(d)) {
      return BuildFailed(DuplicateSection);
    }
    var records := [];
    for j := 0 to |d.sections|
      invariant records == RecordsOf(d, j)
      invariant forall s <- d.sections[..j] :: SectionOk(d, s)
    {
      var s := d.sections[j];
      assert s in d.sections && d.sections[..j + 1] == d.sections[..j] + [s];
      SectionChecks(d, s);
      if !IsSectionId(s.id) {
        assert FirstWrong(d, j, InvalidSectionId);
        return BuildFailed(InvalidSectionId);
      }
      if |s.text| > MAX_SPAN {
        assert FirstWrong(d, j, SpanTooLong);
        return BuildFailed(SpanTooLong);
      }
      if !IsRecordId(RecordOf(d, s).id) {
        assert FirstWrong(d, j, InvalidRecordId);
        return BuildFailed(InvalidRecordId);
      }
      records := records + [RecordOf(d, s)];
    }
    assert d.sections[..|d.sections|] == d.sections;
    return Built(records);
  }

  lemma SectionChecks(d: Document, s: Section)
    ensures SectionOk(d, s) <==> IsSectionId(s.id) && |s.text| <= MAX_SPAN && IsRecordId(RecordOf(d, s).id)
  {
  }

  ghost predicate FirstRefused(documents: seq<Document>, i: nat, error: BuildError)
    requires i < |documents|
  {
    (forall d <- documents[..i] :: DocumentOk(d)) && Refused(documents[i], error) && error != DuplicateRecord
  }

  method UnstampedRecords(documents: seq<Document>) returns (r: Built)
    ensures r.Built? <==> Buildable(documents)
    ensures r.Built? ==> r.records == Records(documents)
    ensures r.BuildFailed? ==>
              if r.error == DuplicateRecord then forall d <- documents :: DocumentOk(d)
              else exists i :: 0 <= i < |documents| && FirstRefused(documents, i, r.error)
  {
    hide DocumentOk, Distinct, Refused;
    var records := [];
    for i := 0 to |documents|
      invariant records == Records(documents[..i])
      invariant forall d <- documents[..i] :: DocumentOk(d)
    {
      var d := documents[i];
      assert documents[..i + 1][..i] == documents[..i] && d in documents;
      assert documents[..i + 1] == documents[..i] + [d];
      var built := DocumentRecords(d);
      if built.BuildFailed? {
        assert FirstRefused(documents, i, built.error);
        return built;
      }
      records := records + built.records;
    }
    assert documents[..|documents|] == documents;
    if !Distinct(RecordIds(records)) {
      return BuildFailed(DuplicateRecord);
    }
    return Built(records);
  }

  // -------------------------------------------------------------------- stamp

  function FormatCitation(shortTitle: Text, sectionId: Text, snapshotId: Text): Text {
    shortTitle + [0x20, 0xA7] + sectionId + Ascii(" (snapshot ") + snapshotId + [0x29]
  }

  /** The fields of a stamped record in the order they are printed. */
  function Fields(r: Record, snapshotId: Text): seq<(Field, Text)> {
    [(Citation, FormatCitation(r.document.shortTitle, r.section.id, snapshotId)),
     (DocId, r.document.id),
     (Heading, r.section.heading),
     (KindOf, if r.document.kind == Product then Ascii("PRODUCT") else Ascii("POLICY"))]
    + (if r.document.productCode.Some? then [(ProductCode, r.document.productCode.value)] else [])
    + [(SectionId, r.section.id),
       (ShortTitle, r.document.shortTitle),
       (SnapshotId, snapshotId),
       (TextSpan, r.section.text),
       (Title, r.document.title)]
  }

  function FromFields(fields: seq<(Field, Text)>): Members {
    if fields == [] then End else More(Name(fields[0].0), Str(fields[0].1), FromFields(fields[1..]))
  }

  function Stamped(r: Record, snapshotId: Text): Json {
    Obj(More(Ascii("id"), Str(r.id), More(Ascii("structData"), Obj(FromFields(Fields(r, snapshotId))), End)))
  }

  datatype Manifest = Manifest(schemaVersion: int, snapshotId: Text, recordCount: nat)
  datatype Snapshot = Snapshot(manifest: Manifest, records: seq<Json>)

  predicate HexText(t: Text) {
    t != [] && forall i :: 0 <= i < |t| ==> HexValue(t[i]).Some?
  }

  /** The snapshot of some records, whose digest is given. */
  function Build(records: seq<Record>, digest: Text): Snapshot {
    var id := [0x31, 0x2D] + digest;
    Snapshot(Manifest(SCHEMA_VERSION, id, |records|),
             seq(|records|, i requires 0 <= i < |records| => Stamped(records[i], id)))
  }

  function Lines(records: seq<Json>): (lines: seq<Text>)
    ensures |lines| == |records|
  {
    seq(|records|, i requires 0 <= i < |records| => Print(records[i]))
  }

  /** The documents file: one line a record. */
  function Render(s: Snapshot): Text {
    JoinLines(Lines(s.records))
  }

  // --------------------------------------------------------------------- load

  /** A dictionary keeps the last value of a repeated name. */
  function Lookup(m: Members, name: Text): Option<Json> {
    match m
    case End => None
    case More(n, value, rest) =>
      var later := Lookup(rest, name);
      if later.Some? then later else if n == name then Some(value) else None
  }

  function StructData(record: Json): Members {
    if record.Obj? then
      match Lookup(record.members, Ascii("structData"))
      case Some(Obj(m)) => m
      case _ => End
    else End
  }

  function FieldText(m: Members, f: Field): Text {
    match Lookup(m, Name(f))
    case Some(Str(t)) => t
    case _ => []
  }

  /** A loaded record is grounded in the snapshot and short enough. */
  predicate Grounded(record: Json, snapshotId: Text) {
    var m := StructData(record);
    && FieldText(m, SnapshotId) == snapshotId
    && (forall f <- GROUNDED :: !Blank(FieldText(m, f)))
    && |FieldText(m, TextSpan)| <= MAX_SPAN
  }

  function ParseLine(line: Text): Option<Json> {
    var parsed := Parse(line);
    if parsed.Some? && parsed.value.1 == [] then Some(parsed.value.0) else None
  }

  /** The lines that are not blank, parsed. */
  function ParseLines(lines: seq<Text>): Option<seq<Json>> {
    if lines == [] then Some([])
    else
      var n := |lines| - 1;
      var before := ParseLines(lines[..n]);
      if before.None? then None
      else if Blank(lines[n]) then before
      else if ParseLine(lines[n]).None? then None
      else Some(before.value + [ParseLine(lines[n]).value])
  }

  /** The lines a snapshot consists of. */
  function Kept(lines: seq<Text>): seq<Text> {
    if lines == [] then []
    else
      var n := |lines| - 1;
      Kept(lines[..n]) + if Blank(lines[n]) then [] else [lines[n]]
  }

  /** Reading gives one value a line, blank lines aside, and nothing if any line does not parse. */
  lemma {:induction false} ParsedLines(lines: seq<Text>, records: seq<Json>)
    ensures ParseLines(lines) == Some(records) <==>
      |records| == |Kept(lines)| && forall i :: 0 <= i < |records| ==> ParseLine(Kept(lines)[i]) == Some(records[i])
  {
    hide Blank, ParseLine;
    if lines != [] {
      var n := |lines| - 1;
      if Blank(lines[n]) {
        ParsedLines(lines[..n], records);
      } else if records != [] {
        ParsedLines(lines[..n], records[..|records| - 1]);
        assert records == records[..|records| - 1] + [records[|records| - 1]];
      }
      if ParseLines(lines).Some? && !Blank(lines[n]) {
        ParsedLines(lines[..n], ParseLines(lines[..n]).value);
      }
    }
  }

  predicate Loadable(m: Manifest, text: Text) {
    && m.schemaVersion == SCHEMA_VERSION && m.snapshotId != []
    && var records := ParseLines(SplitLines(text, []));
    && records.Some? && |records.value| == m.recordCount
    && forall r <- records.value :: Grounded(r, m.snapshotId)
  }

  method LoadCorpus(m: Manifest, text: Text) returns (r: Option<Snapshot>)
    ensures r.Some? <==> Loadable(m, text)
    ensures r.Some? ==> r.value == Snapshot(m, ParseLines(SplitLines(text, [])).value)
  {
    if m.schemaVersion != SCHEMA_VERSION {
      return None;
    }
    var lines := SplitLines(text, []);
    var records: seq<Json> := [];
    for i := 0 to |lines|
      invariant ParseLines(lines[..i]) == Some(records)
    {
      assert lines[..i + 1][..i] == lines[..i];
      if !Blank(lines[i]) {
        var parsed := ParseLine(lines[i]);
        if parsed.None? {
          FailureStays(lines, i + 1);
          return None;
        }
        records := records + [parsed.value];
      }
    }
    assert lines[..|lines|] == lines;
    if m.snapshotId == [] || |records| != m.recordCount {
      return None;
    }
    for i := 0 to |records|
      invariant forall x <- records[..i] :: Grounded(x, m.snapshotId)
    {
      assert records[..i + 1] == records[..i] + [records[i]] && records[i] in records;
      if !Grounded(records[i], m.snapshotId) {
        return None;
      }
    }
    assert records[..|records|] == records;
    return Some(Snapshot(m, records));
  }

  lemma {:induction false} FailureStays(lines: seq<Text>, n: nat)
    requires n <= |lines| && ParseLines(lines[..n]).None?
    ensures ParseLines(lines).None?
    decreases |lines|
  {
    if n == |lines| {
      assert lines[..n] == lines;
    } else {
      assert lines[..|lines| - 1][..n] == lines[..n];
      FailureStays(lines[..|lines| - 1], n);
    }
  }

  // --------------------------------------------------------------- round trip

  lemma NamesDiffer(a: Field, b: Field)
    requires a != b
    ensures Name(a) != Name(b)
  {
    assert |Name(a)| == |Name(b)| ==> Name(a)[1] != Name(b)[1];
  }

  predicate DistinctFields(fields: seq<(Field, Text)>) {
    forall i, j :: 0 <= i < j < |fields| ==> fields[i].0 != fields[j].0
  }

  lemma {:induction false} FieldIsFound(fields: seq<(Field, Text)>, f: Field)
    requires DistinctFields(fields)
    ensures Lookup(FromFields(fields), Name(f)).Some? <==> exists i :: 0 <= i < |fields| && fields[i].0 == f
    ensures forall i :: 0 <= i < |fields| && fields[i].0 == f ==>
              Lookup(FromFields(fields), Name(f)) == Some(Str(fields[i].1))
  {
    hide Name;
    if fields != [] {
      FieldIsFound(fields[1..], f);
      if fields[0].0 != f {
        NamesDiffer(fields[0].0, f);
      }
      assert forall i :: 1 <= i < |fields| ==> fields[i] == fields[1..][i - 1];
    }
  }

  lemma AsciiIsPairFree(t: Text)
    requires forall i :: 0 <= i < |t| ==> !High(t[i])
    ensures PairFree(t)
  {
  }

  lemma {:induction false} FieldsPairFree(fields: seq<(Field, Text)>)
    ensures PairFreeMembers(FromFields(fields)) <==> forall i :: 0 <= i < |fields| ==> PairFree(fields[i].1)
  {
    if fields != [] {
      AsciiIsPairFree(Name(fields[0].0));
      FieldsPairFree(fields[1..]);
      assert forall i :: 1 <= i < |fields| ==> fields[i] == fields[1..][i - 1];
    }
  }

  lemma PairFreePrefix(t: Text, rest: Text)
    requires rest != [] && !Low(rest[0]) && PairFree(rest)
    ensures PairFree(t + rest) <==> PairFree(t)
  {
    var s := t + rest;
    if PairFree(s) {
      forall i | 0 <= i < |t| - 1 ensures !(High(t[i]) && Low(t[i + 1])) {
        assert s[i] == t[i] && s[i + 1] == t[i + 1];
      }
    }
    if PairFree(t) {
      forall i | 0 <= i < |s| - 1 ensures !(High(s[i]) && Low(s[i + 1])) {
        if i >= |t| {
          assert rest[i - |t|] == s[i] && rest[i - |t| + 1] == s[i + 1];
        } else if i + 1 < |t| {
          assert t[i] == s[i] && t[i + 1] == s[i + 1];
        }
      }
    }
  }

  /** The texts of a record that are free of adjacent surrogates. */
  predicate PairFreeRecord(r: Record) {
    && PairFree(r.document.title) && PairFree(r.document.shortTitle)
    && (r.document.productCode.Some? ==> PairFree(r.document.productCode.value))
    && PairFree(r.section.heading) && PairFree(r.section.text)
  }

  lemma IdsArePairFree(d: Document, s: Section)
    requires SectionOk(d, s)
    ensures PairFree(d.id) && PairFree(s.id) && PairFree(RecordOf(d, s).id)
    ensures !Blank(d.id) && !Blank(s.id)
    ensures forall i :: 0 <= i < |s.id| ==> !High(s.id[i])
  {
    var id := RecordOf(d, s).id;
    IdHasNoHigh(id);
    assert forall i :: 0 <= i < |d.id| ==> d.id[i] == id[i];
    assert forall i :: 0 <= i < |s.id| ==> s.id[i] == id[|d.id| + 1 + i];
    assert !WhiteSpace.IsSpace(s.id[0]);
    assert d.id != [] && !WhiteSpace.IsSpace(id[0]);
  }

  lemma IdHasNoHigh(id: Text)
    requires IsRecordId(id)
    ensures forall i :: 0 <= i < |id| ==> !High(id[i])
  {
    var body := WithoutFinalNewline(id);
    assert forall i :: 0 <= i < |body| ==> body[i] == id[i];
    assert |id| > |body| ==> id[|body|] == NEWLINE;
  }

  lemma CitationPairFree(shortTitle: Text, sectionId: Text, snapshotId: Text)
    requires forall i :: 0 <= i < |sectionId| ==> !High(sectionId[i])
    requires forall i :: 0 <= i < |snapshotId| ==> !High(snapshotId[i])
    ensures PairFree(FormatCitation(shortTitle, sectionId, snapshotId)) <==> PairFree(shortTitle)
  {
    var rest := [0x20, 0xA7] + sectionId + Ascii(" (snapshot ") + snapshotId + [0x29];
    assert FormatCitation(shortTitle, sectionId, snapshotId) == shortTitle + rest;
    PairFreePrefix(shortTitle, rest);
  }

  /** A stamped record is free of adjacent surrogates exactly when its own texts are. */
  lemma StampedPairFree(r: Record, snapshotId: Text)
    requires SectionOk(r.document, r.section) && r == RecordOf(r.document, r.section)
    requires forall i :: 0 <= i < |snapshotId| ==> !High(snapshotId[i])
    ensures PairFreeJson(Stamped(r, snapshotId)) <==> PairFreeRecord(r)
  {
    IdsArePairFree(r.document, r.section);
    CitationPairFree(r.document.shortTitle, r.section.id, snapshotId);
    hide PairFree, SectionOk, FormatCitation;
    var fields := Fields(r, snapshotId);
    StampedIsFields(r, snapshotId);
    FieldsPairFree(fields);
    AsciiIsPairFree(Ascii("PRODUCT"));
    AsciiIsPairFree(Ascii("POLICY"));
    AsciiIsPairFree(snapshotId);
    FieldsEach(r, snapshotId);
    hide Fields, Stamped, FromFields;
    var shift := if r.document.productCode.Some? then 1 else 0;
    if PairFreeRecord(r) {
      forall i | 0 <= i < |fields| ensures PairFree(fields[i].1) {
        assert i <= 3 || (i == 4 && shift == 1) || 4 + shift <= i <= 8 + shift;
      }
    }
  }

  lemma StampedIsFields(r: Record, snapshotId: Text)
    ensures PairFreeJson(Stamped(r, snapshotId)) <==>
              PairFree(r.id) && PairFreeMembers(FromFields(Fields(r, snapshotId)))
  {
    AsciiIsPairFree(Ascii("id"));
    AsciiIsPairFree(Ascii("structData"));
    hide PairFree, FromFields, Fields;
    var inner := More(Ascii("structData"), Obj(FromFields(Fields(r, snapshotId))), End);
    assert PairFreeJson(Obj(FromFields(Fields(r, snapshotId)))) <==> PairFreeMembers(FromFields(Fields(r, snapshotId)));
    assert PairFreeMembers(inner) <==> PairFreeMembers(FromFields(Fields(r, snapshotId)));
    var all := More(Ascii("id"), Str(r.id), inner);
    assert PairFreeJson(Str(r.id)) <==> PairFree(r.id);
    assert PairFreeMembers(all) <==> PairFree(r.id) && PairFreeMembers(inner);
  }

  /** The texts among the fields of a record. */
  lemma FieldsEach(r: Record, snapshotId: Text)
    ensures var fields := Fields(r, snapshotId); var shift := if r.document.productCode.Some? then 1 else 0;
      && |fields| == 9 + shift
      && fields[0] == (Citation, FormatCitation(r.document.shortTitle, r.section.id, snapshotId))
      && fields[1] == (DocId, r.document.id) && fields[2] == (Heading, r.section.heading)
      && fields[3] == (KindOf, Ascii(if r.document.kind == Product then "PRODUCT" else "POLICY"))
      && (shift == 1 ==> fields[4] == (ProductCode, r.document.productCode.value))
      && (shift == 0 ==> forall i :: 0 <= i < |fields| ==> fields[i].0 != ProductCode)
      && fields[4 + shift] == (SectionId, r.section.id) && fields[5 + shift] == (ShortTitle, r.document.shortTitle)
      && fields[6 + shift] == (SnapshotId, snapshotId) && fields[7 + shift] == (TextSpan, r.section.text)
      && fields[8 + shift] == (Title, r.document.title)
      && DistinctFields(fields)
  {
    hide FormatCitation, Ascii;
  }

  /** A stamped record is grounded exactly when its title and text are not blank. */
  lemma StampedGrounded(r: Record, snapshotId: Text)
    requires SectionOk(r.document, r.section) && !Blank(snapshotId)
    ensures Grounded(Stamped(r, snapshotId), snapshotId) <==> !Blank(r.document.shortTitle) && !Blank(r.section.text)
  {
    IdsArePairFree(r.document, r.section);
    StructIsFound(r, snapshotId);
    FieldTexts(r, snapshotId);
    GroundedFields(Stamped(r, snapshotId), snapshotId);
    hide Fields, FromFields, Blank, Stamped, StructData, FieldText, IsRecordId, IsSectionId, Grounded;
  }

  lemma GroundedFields(record: Json, snapshotId: Text)
    ensures var m := StructData(record);
      Grounded(record, snapshotId) <==>
        && FieldText(m, SnapshotId) == snapshotId
        && !Blank(FieldText(m, DocId)) && !Blank(FieldText(m, SectionId)) && !Blank(FieldText(m, ShortTitle))
        && !Blank(snapshotId) && !Blank(FieldText(m, TextSpan)) && |FieldText(m, TextSpan)| <= MAX_SPAN
  {
    hide Blank, StructData, FieldText;
    assert GROUNDED[0] in GROUNDED && GROUNDED[1] in GROUNDED && GROUNDED[2] in GROUNDED;
    assert GROUNDED[3] in GROUNDED && GROUNDED[4] in GROUNDED;
  }

  /** What a loaded snapshot promises: as many records as the manifest says, each read from
      its line, stamped with the manifest's snapshot, with nothing blank and a short text. */
  lemma LoadedRecords(m: Manifest, text: Text, records: seq<Json>, i: nat)
    requires Loadable(m, text) && ParseLines(SplitLines(text, [])) == Some(records) && i < |records|
    ensures |records| == m.recordCount == |Kept(SplitLines(text, []))| && m.schemaVersion == SCHEMA_VERSION
    ensures ParseLine(Kept(SplitLines(text, []))[i]) == Some(records[i])
    ensures var struct := StructData(records[i]);
      && FieldText(struct, SnapshotId) == m.snapshotId && !Blank(m.snapshotId)
      && !Blank(FieldText(struct, DocId)) && !Blank(FieldText(struct, SectionId))
      && !Blank(FieldText(struct, ShortTitle)) && !Blank(FieldText(struct, TextSpan))
      && |FieldText(struct, TextSpan)| <= MAX_SPAN
  {
    hide Blank, Grounded, StructData, FieldText, ParseLine, ParseLines, SplitLines, Kept;
    ParsedLines(SplitLines(text, []), records);
    GroundedFields(records[i], m.snapshotId);
    assert Grounded(records[i], m.snapshotId);
  }

  /** A stamped record says of its section exactly what the document says. */
  lemma FieldTexts(r: Record, snapshotId: Text)
    ensures var m := FromFields(Fields(r, snapshotId));
      && FieldText(m, DocId) == r.document.id && FieldText(m, SectionId) == r.section.id
      && FieldText(m, ShortTitle) == r.document.shortTitle && FieldText(m, SnapshotId) == snapshotId
      && FieldText(m, TextSpan) == r.section.text
      && FieldText(m, Citation) == FormatCitation(r.document.shortTitle, r.section.id, snapshotId)
      && FieldText(m, Heading) == r.section.heading && FieldText(m, Title) == r.document.title
      && FieldText(m, KindOf) == Ascii(if r.document.kind == Product then "PRODUCT" else "POLICY")
      && (if r.document.productCode.Some? then FieldText(m, ProductCode) == r.document.productCode.value
          else Lookup(m, Name(ProductCode)).None?)
  {
    var fields := Fields(r, snapshotId);
    FieldsEach(r, snapshotId);
    hide Fields, FromFields, FormatCitation, Name, DistinctFields, FieldText, Lookup;
    forall i | 0 <= i < |fields| ensures FieldText(FromFields(fields), fields[i].0) == fields[i].1 {
      FieldTextIs(fields, i);
    }
    FieldIsFound(fields, ProductCode);
  }

  lemma FieldTextIs(fields: seq<(Field, Text)>, i: nat)
    requires DistinctFields(fields) && i < |fields|
    ensures FieldText(FromFields(fields), fields[i].0) == fields[i].1
  {
    hide FromFields, Name, DistinctFields;
    FieldIsFound(fields, fields[i].0);
  }

  lemma StructIsFound(r: Record, snapshotId: Text)
    ensures StructData(Stamped(r, snapshotId)) == FromFields(Fields(r, snapshotId))
  {
    hide FromFields, Fields;
    var inner := More(Ascii("structData"), Obj(FromFields(Fields(r, snapshotId))), End);
    assert Lookup(End, Ascii("structData")) == None;
    assert Lookup(inner, Ascii("structData")) == Some(Obj(FromFields(Fields(r, snapshotId))));
  }

  lemma {:induction false} DocumentRecordsAre(d: Document, n: nat)
    requires n <= |d.sections|
    ensures forall r <- RecordsOf(d, n) :: r.document == d && r.section in d.sections && r == RecordOf(d, r.section)
  {
    if n > 0 {
      DocumentRecordsAre(d, n - 1);
    }
  }

  /** Every record is a section of one of the documents, as the builder checked it. */
  lemma {:induction false} RecordsAreSections(documents: seq<Document>)
    requires forall d <- documents :: DocumentOk(d)
    ensures forall r <- Records(documents) ::
              && r.document in documents && r.section in r.document.sections
              && r == RecordOf(r.document, r.section) && SectionOk(r.document, r.section)
  {
    hide SectionOk, RecordOf;
    if documents != [] {
      var n := |documents| - 1;
      RecordsAreSections(documents[..n]);
      DocumentRecordsAre(documents[n], |documents[n].sections|);
      assert documents[n] in documents;
    }
  }

  /** The number of sections of the first documents. */
  function SectionsBefore(documents: seq<Document>, i: nat): nat
    requires i <= |documents|
  {
    if i == 0 then 0 else SectionsBefore(documents, i - 1) + |documents[i - 1].sections|
  }

  lemma {:induction false} DocumentRecordAt(d: Document, n: nat, j: nat)
    requires j < n <= |d.sections|
    ensures |RecordsOf(d, n)| == n
    ensures RecordsOf(d, n)[j] == Record(d.id + [0x2D] + d.sections[j].id, d, d.sections[j])
  {
    if j < n - 1 {
      DocumentRecordAt(d, n - 1, j);
    } else if n > 1 {
      DocumentRecordAt(d, n - 1, 0);
    }
  }

  lemma {:induction false} SectionsBeforeFewer(documents: seq<Document>, n: nat, i: nat)
    requires i <= n <= |documents|
    ensures SectionsBefore(documents[..n], i) == SectionsBefore(documents, i)
  {
    if i > 0 {
      SectionsBeforeFewer(documents, n, i - 1);
    }
  }

  lemma {:induction false} RecordCount(documents: seq<Document>)
    ensures |Records(documents)| == SectionsBefore(documents, |documents|)
  {
    if documents != [] {
      var n := |documents| - 1;
      RecordCount(documents[..n]);
      SectionsBeforeFewer(documents, n, n);
      if |documents[n].sections| > 0 {
        DocumentRecordAt(documents[n], |documents[n].sections|, 0);
      }
    }
  }

  /** Every section of every document has its record, in the order of the documents; with
      `RecordCount` there are no others. */
  lemma {:induction false} RecordAt(documents: seq<Document>, i: nat, j: nat)
    requires i < |documents| && j < |documents[i].sections|
    ensures var d, k := documents[i], SectionsBefore(documents, i) + j;
      k < |Records(documents)| && Records(documents)[k] == Record(d.id + [0x2D] + d.sections[j].id, d, d.sections[j])
  {
    var n := |documents| - 1;
    RecordCount(documents[..n]);
    SectionsBeforeFewer(documents, n, i);
    if i < n {
      RecordAt(documents[..n], i, j);
    } else {
      DocumentRecordAt(documents[n], |documents[n].sections|, j);
    }
  }

  lemma LinesArePrintable(records: seq<Json>)
    ensures forall i :: 0 <= i < |records| ==> PrintableText(Lines(records)[i])
  {
    forall i | 0 <= i < |records| ensures PrintableText(Lines(records)[i]) {
      PrintIsPrintable(records[i]);
    }
  }

  function JoinedAll(records: seq<Json>): (r: seq<Json>)
    ensures |r| == |records|
  {
    seq(|records|, i requires 0 <= i < |records| => JoinedJson(records[i]))
  }

  /** The lines of printed objects are parsed to those objects, surrogate pairs joined. */
  lemma {:induction false} LinesAreParsed(records: seq<Json>)
    requires forall r <- records :: r.Obj?
    ensures ParseLines(Lines(records)) == Some(JoinedAll(records))
  {
    hide Parse, Print;
    if records != [] {
      var n := |records| - 1;
      LinesAreParsed(records[..n]);
      assert Lines(records)[..n] == Lines(records[..n]);
      assert JoinedAll(records) == JoinedAll(records[..n]) + [JoinedJson(records[n])];
      RoundTrip(records[n]);
      ObjectIsNotBlank(records[n]);
    }
  }

  lemma ObjectIsNotBlank(record: Json)
    requires record.Obj?
    ensures !Blank(Print(record))
  {
    assert Print(record)[0] == OPEN;
  }

  /** The documents file is one printable ASCII line a record. */
  lemma RenderedIsParsed(s: Snapshot)
    requires forall r <- s.records :: r.Obj?
    ensures SplitLines(Render(s), []) == Lines(s.records)
    ensures forall i :: 0 <= i < |s.records| ==> PrintableText(Lines(s.records)[i])
    ensures ParseLines(SplitLines(Render(s), [])) == Some(JoinedAll(s.records))
  {
    LinesArePrintable(s.records);
    LinesRoundTrip(Lines(s.records));
    LinesAreParsed(s.records);
  }

  lemma SnapshotIdIsPlain(digest: Text)
    requires HexText(digest)
    ensures var id := [0x31, 0x2D] + digest;
      !Blank(id) && forall i :: 0 <= i < |id| ==> !High(id[i])
  {
    var id := [0x31, 0x2D] + digest;
    assert !WhiteSpace.IsSpace(id[0]);
    assert forall i :: 2 <= i < |id| ==> id[i] == digest[i - 2];
  }

  /** A text the loader accepts and gives back as it is. */
  predicate Survives(r: Record) {
    PairFreeRecord(r) && !Blank(r.document.shortTitle) && !Blank(r.section.text)
  }

  /** A snapshot of objects is loaded back exactly when reading keeps and grounds each. */
  lemma LoadsBack(s: Snapshot)
    requires forall r <- s.records :: r.Obj?
    ensures var text := Render(s);
      (Loadable(s.manifest, text) && ParseLines(SplitLines(text, [])) == Some(s.records)) <==>
        && s.manifest.schemaVersion == SCHEMA_VERSION && s.manifest.snapshotId != []
        && s.manifest.recordCount == |s.records|
        && forall i :: 0 <= i < |s.records| ==>
          JoinedJson(s.records[i]) == s.records[i] && Grounded(s.records[i], s.manifest.snapshotId)
  {
    hide Loadable, Render, Grounded, JoinedJson;
    RenderedIsParsed(s);
    LoadableMeans(s.manifest, Render(s));
    if forall i :: 0 <= i < |s.records| ==> JoinedJson(s.records[i]) == s.records[i] {
      assert JoinedAll(s.records) == s.records;
    } else {
      var i :| 0 <= i < |s.records| && JoinedJson(s.records[i]) != s.records[i];
      assert JoinedAll(s.records)[i] != s.records[i];
    }
  }

  /** What becomes of each record of a built snapshot. */
  lemma EachRecord(documents: seq<Document>, digest: Text, i: nat)
    requires Buildable(documents) && HexText(digest) && i < |Records(documents)|
    ensures var r := Records(documents)[i]; var s := Build(Records(documents), digest);
      && s.records[i].Obj?
      && ((JoinedJson(s.records[i]) == s.records[i] && Grounded(s.records[i], s.manifest.snapshotId)) <==> Survives(r))
  {
    hide PairFreeRecord, Blank, SectionOk, DocumentOk, Grounded, JoinedJson, HexText, Distinct;
    var r := Records(documents)[i];
    var s := Build(Records(documents), digest);
    SnapshotIdIsPlain(digest);
    RecordsAreSections(documents);
    assert r in Records(documents);
    StampedIsObject(r, s.manifest.snapshotId);
    hide Stamped, Records;
    StampedPairFree(r, s.manifest.snapshotId);
    JoinedJsonIsSame(s.records[i]);
    StampedGrounded(r, s.manifest.snapshotId);
  }

  /** Rendering and loading return the very same snapshot exactly when every record has a
      short title and a text that are not blank, and no high surrogate directly in front
      of a low one; blank texts are built and printed, but then refused by the loader. */
  lemma RenderThenLoad(documents: seq<Document>, digest: Text)
    requires Buildable(documents) && HexText(digest)
    ensures var s := Build(Records(documents), digest); var text := Render(s);
      (Loadable(s.manifest, text) && ParseLines(SplitLines(text, [])) == Some(s.records))
      <==> forall r <- Records(documents) :: Survives(r)
  {
    hide Loadable, Render, Grounded, JoinedJson, Stamped, Survives, Buildable, HexText, ParseLines, Records;
    var s := Build(Records(documents), digest);
    forall i | 0 <= i < |Records(documents)|
      ensures s.records[i].Obj?
      ensures (JoinedJson(s.records[i]) == s.records[i] && Grounded(s.records[i], s.manifest.snapshotId)) <==>
                Survives(Records(documents)[i])
    {
      EachRecord(documents, digest, i);
    }
    LoadsBack(s);
  }

  /** A document of one section that the builder accepts whatever the text says. */
  function OneSection(text: Text): Document {
    Document([0x41], Product, [0x41], [0x41], None, [Section([0x61], [], text)])
  }

  function TheRecord(text: Text): Record {
    RecordOf(OneSection(text), OneSection(text).sections[0])
  }

  lemma OneSectionRecords(text: Text)
    requires |text| <= MAX_SPAN
    ensures Buildable([OneSection(text)])
    ensures Records([OneSection(text)]) == [TheRecord(text)]
    ensures SectionOk(OneSection(text), OneSection(text).sections[0])
  {
    var d := OneSection(text);
    assert RecordsOf(d, 1) == RecordsOf(d, 0) + [RecordOf(d, d.sections[0])];
    assert [d][..0] == [];
    assert RecordOf(d, d.sections[0]).id == [0x41, 0x2D, 0x61];
  }

  lemma BuildOfOne(record: Record, digest: Text)
    ensures Build([record], digest).records == [Stamped(record, [0x31, 0x2D] + digest)]
  {
    hide Stamped;
  }

  /** What is read of a rendered snapshot of one section. */
  lemma OneRecordParsed(text: Text, digest: Text)
    requires |text| <= MAX_SPAN
    ensures var s := Build(Records([OneSection(text)]), digest);
      && s.records == [Stamped(TheRecord(text), s.manifest.snapshotId)]
      && ParseLines(SplitLines(Render(s), [])) == Some([JoinedJson(s.records[0])])
  {
    hide Stamped, JoinedJson, Render, ParseLines, SplitLines, TheRecord, OneSection, SectionOk, Buildable, Records;
    var s := Build(Records([OneSection(text)]), digest);
    OneSectionRecords(text);
    BuildOfOne(TheRecord(text), digest);
    StampedIsObject(TheRecord(text), s.manifest.snapshotId);
    RenderedIsParsed(s);
    assert JoinedAll(s.records) == [JoinedJson(s.records[0])];
  }

  /** A blank text: built and printed, read back the same, and refused. */
  lemma BlankTextIsRefused(digest: Text)
    requires HexText(digest)
    ensures var documents := [OneSection([0x20])]; var s := Build(Records(documents), digest);
      && Buildable(documents)
      && ParseLines(SplitLines(Render(s), [])) == Some(s.records) && !Loadable(s.manifest, Render(s))
  {
    hide Loadable, Render, ParseLines, SplitLines, HexText, Stamped, JoinedJson, Records, SectionOk, PairFreeJson;
    var text := [0x20];
    var s := Build(Records([OneSection(text)]), digest);
    OneSectionRecords(text);
    OneRecordParsed(text, digest);
    SnapshotIdIsPlain(digest);
    StampedPairFree(TheRecord(text), s.manifest.snapshotId);
    JoinedJsonIsSame(s.records[0]);
    assert !Survives(TheRecord(text)) by {
      assert Blank(text);
    }
    assert TheRecord(text) in Records([OneSection(text)]);
    RenderThenLoad([OneSection(text)], digest);
  }

  /** A text stored with a high surrogate directly in front of a low one: built, printed and
      loaded, but with one character in the place of the two. */
  lemma SurrogatesAreMerged(digest: Text)
    requires HexText(digest)
    ensures var documents := [OneSection([0xD83D, 0xDE00])]; var s := Build(Records(documents), digest);
      && Buildable(documents) && Loadable(s.manifest, Render(s))
      && ParseLines(SplitLines(Render(s), [])) == Some(Build(Records([OneSection([0x1F600])]), digest).records)
      && ParseLines(SplitLines(Render(s), [])) != Some(s.records)
  {
    hide Loadable, Render, ParseLines, SplitLines, HexText, Stamped, JoinedJson, Records, SectionOk, Grounded, Blank;
    var pair, one := [0xD83D, 0xDE00], [0x1F600];
    var s := Build(Records([OneSection(pair)]), digest);
    assert Joined(pair) == one by {
      assert pair[2..] == [];
    }
    hide Joined;
    OneSectionRecords(pair);
    OneSectionRecords(one);
    OneRecordParsed(pair, digest);
    OneRecordParsed(one, digest);
    JoinedStamped(pair, digest);
    SnapshotIdIsPlain(digest);
    NotBlank([0x41]);
    NotBlank(one);
    StampedGrounded(TheRecord(one), s.manifest.snapshotId);
    LoadableMeans(s.manifest, Render(s));
    assert !PairFree(pair) by {
      assert High(pair[0]) && Low(pair[1]);
    }
    assert TheRecord(pair) in Records([OneSection(pair)]);
    RenderThenLoad([OneSection(pair)], digest);
  }

  lemma NotBlank(t: Text)
    requires t != [] && !WhiteSpace.IsSpace(t[0])
    ensures !Blank(t)
  {
  }

  /** The fields of the one record, in the order they are printed. */
  function OneFields(text: Text, id: Text): seq<(Field, Text)> {
    [(Citation, FormatCitation([0x41], [0x61], id)), (DocId, [0x41]), (Heading, []), (KindOf, Ascii("PRODUCT")),
     (SectionId, [0x61]), (ShortTitle, [0x41]), (SnapshotId, id), (TextSpan, text), (Title, [0x41])]
  }

  lemma OneFieldsAre(text: Text, id: Text)
    ensures Fields(TheRecord(text), id) == OneFields(text, id)
  {
  }

  lemma OneFieldsJoined(text: Text, id: Text)
    requires PairFree(id) && PairFree(FormatCitation([0x41], [0x61], id))
    ensures JoinedFields(OneFields(text, id)) == OneFields(Joined(text), id)
  {
    hide PairFree, FormatCitation, JoinedFields, Joined;
    var fields := OneFields(text, id);
    assert PairFree([0x41]) && PairFree([0x61]) && PairFree([]) && PairFree(Ascii("PRODUCT")) by {
      ShortIsPairFree();
    }
    forall i | 0 <= i < 9 ensures JoinedFields(fields)[i] == OneFields(Joined(text), id)[i] {
      JoinedFieldAt(fields, i);
      JoinedIsSame(fields[i].1);
    }
  }

  lemma ShortIsPairFree()
    ensures PairFree([0x41]) && PairFree([0x61]) && PairFree([]) && PairFree([0x41, 0x2D, 0x61])
    ensures PairFree(Ascii("PRODUCT")) && PairFree(Ascii("id")) && PairFree(Ascii("structData"))
  {
  }

  /** Two members, one of them nested. */
  lemma JoinedNested(first: Text, id: Text, second: Text, m: Members)
    requires PairFree(first) && PairFree(id) && PairFree(second)
    ensures JoinedJson(Obj(More(first, Str(id), More(second, Obj(m), End))))
            == Obj(More(first, Str(id), More(second, Obj(JoinedMembers(m)), End)))
  {
    JoinedIsSame(first);
    JoinedIsSame(id);
    JoinedIsSame(second);
    hide Joined, PairFree;
    assert JoinedJson(Obj(m)) == Obj(JoinedMembers(m));
    var inner := More(second, Obj(m), End);
    assert JoinedMembers(End) == End;
    assert JoinedMembers(inner) == More(second, Obj(JoinedMembers(m)), End);
    assert JoinedMembers(More(first, Str(id), inner)) == More(first, Str(id), JoinedMembers(inner));
  }

  lemma JoinedStamped(text: Text, digest: Text)
    requires HexText(digest)
    ensures var id := [0x31, 0x2D] + digest;
      JoinedJson(Stamped(TheRecord(text), id)) == Stamped(TheRecord(Joined(text)), id)
  {
    hide Joined, JoinedFields, FormatCitation, JoinedJson, JoinedMembers, FromFields, Fields, OneFields, HexText;
    var id := [0x31, 0x2D] + digest;
    assert PairFree(id) && PairFree(FormatCitation([0x41], [0x61], id)) by {
      SnapshotIdIsPlain(digest);
      CitationPairFree([0x41], [0x61], id);
      ShortIsPairFree();
    }
    hide PairFree;
    OneFieldsAre(text, id);
    OneFieldsAre(Joined(text), id);
    OneFieldsJoined(text, id);
    JoinedFromFields(OneFields(text, id));
    ShortIsPairFree();
    var m := FromFields(Fields(TheRecord(text), id));
    assert TheRecord(text).id == [0x41, 0x2D, 0x61] && TheRecord(Joined(text)).id == [0x41, 0x2D, 0x61];
    JoinedNested(Ascii("id"), [0x41, 0x2D, 0x61], Ascii("structData"), m);
    hide Ascii;
  }

  lemma {:induction false} JoinedFieldAt(fields: seq<(Field, Text)>, i: nat)
    requires i < |fields|
    ensures JoinedFields(fields)[i] == (fields[i].0, Joined(fields[i].1))
  {
    if i > 0 {
      JoinedFieldAt(fields[1..], i - 1);
    }
  }

  function JoinedFields(fields: seq<(Field, Text)>): (r: seq<(Field, Text)>)
    ensures |r| == |fields|
  {
    if fields == [] then [] else [(fields[0].0, Joined(fields[0].1))] + JoinedFields(fields[1..])
  }

  lemma {:induction false} JoinedFromFields(fields: seq<(Field, Text)>)
    ensures JoinedMembers(FromFields(fields)) == FromFields(JoinedFields(fields))
  {
    if fields != [] {
      NameIsPlain(fields[0].0);
      JoinedIsSame(Name(fields[0].0));
      JoinedFromFields(fields[1..]);
      assert JoinedFields(fields)[1..] == JoinedFields(fields[1..]);
    }
  }

  lemma NameIsPlain(f: Field)
    ensures PairFree(Name(f))
  {
  }

  /** What every snapshot that is built promises: unique ids, short spans. */
  lemma BuiltRecords(documents: seq<Document>)
    requires Buildable(documents)
    ensures Distinct(RecordIds(Records(documents)))
    ensures forall r <- Records(documents) ::
              |r.section.text| <= MAX_SPAN && IsRecordId(r.id) && IsSectionId(r.section.id)
  {
    hide IsRecordId, IsSectionId, Distinct;
    RecordsAreSections(documents);
  }

  lemma LoadableMeans(m: Manifest, text: Text)
    ensures Loadable(m, text) <==>
      && m.schemaVersion == SCHEMA_VERSION && m.snapshotId != []
      && var records := ParseLines(SplitLines(text, []));
      && records.Some? && |records.value| == m.recordCount
      && forall i :: 0 <= i < |records.value| ==> Grounded(records.value[i], m.snapshotId)
  {
    hide Grounded;
  }

  lemma StampedIsObject(r: Record, snapshotId: Text)
    ensures Stamped(r, snapshotId).Obj?
  {
  }
}
