/** Section records, their identifiers, and the public `split` of the heading splitter. */
module Sections {
  import opened Sequences
  import opened Texts
  import opened HeadingSplitter

  /** A value of a section's metadata dictionary. */
  datatype Meta = NoneMeta | TextMeta(text: string) | PathMeta(path: seq<string>) | NumberMeta(n: nat) | ScoreMeta(score: real)

  datatype Section = Section(
    id: string,
    docId: string,
    content: string,
    caption: string,
    embedding: Vector,
    heading: string,
    headingPath: seq<string>,
    order: nat,
    markdownUri: Option<string>,
    sourceUri: Option<string>,
    metadata: map<string, Meta>)

  datatype Job = Job(
    docId: string,
    fileUri: string,
    language: string,
    documentType: string,
    s3LastModified: Option<int>,
    fileName: Option<string>)

  // ---- identifiers ----

  predicate IsDigit(c: char) { '0' <= c <= '9' }

  function DigitChar(d: nat): (c: char)
    requires d < 10
    ensures IsDigit(c)
  {
    ['0', '1', '2', '3', '4', '5', '6', '7', '8', '9'][d]
  }

  function Decimal(n: nat): string {
    if n < 10 then [DigitChar(n)] else Decimal(n / 10) + [DigitChar(n % 10)]
  }

  function Zeros(n: nat): string { seq(n, _ => '0') }

  /** `f"{index:04d}"`. */
  function FourDigits(n: nat): string {
    var d := Decimal(n);
    if |d| < 4 then Zeros(4 - |d|) + d else d
  }

  const INFIX := "_section_"

  /** `f"{job.doc_id}_section_{index:04d}"`. */
  function SectionId(docId: string, index: nat): string {
    docId + INFIX + FourDigits(index)
  }

  function DigitValue(c: char): nat {
    if IsDigit(c) then c as nat - '0' as nat else 0
  }

  function Value(s: string): nat {
    if s == [] then 0 else 10 * Value(s[..|s| - 1]) + DigitValue(s[|s| - 1])
  }

  ghost predicate AllDigits(s: string) {
    forall i :: 0 <= i < |s| ==> IsDigit(s[i])
  }

  lemma {:induction false} DecimalReads(n: nat)
    ensures Value(Decimal(n)) == n && AllDigits(Decimal(n)) && Decimal(n) != []
  {
    if n < 10 {
      assert [DigitChar(n)][..0] == [];
      assert Value([DigitChar(n)]) == 10 * Value([]) + DigitValue(DigitChar(n));
    } else {
      DecimalReads(n / 10);
      var s := Decimal(n);
      assert s[..|s| - 1] == Decimal(n / 10);
    }
  }

  lemma {:induction false} LeadingZeros(k: nat, s: string)
    ensures Value(Zeros(k) + s) == Value(s)
  {
    var t := Zeros(k) + s;
    if s != [] {
      assert t[..|t| - 1] == Zeros(k) + s[..|s| - 1];
      LeadingZeros(k, s[..|s| - 1]);
    } else if k > 0 {
      assert t[..k - 1] == Zeros(k - 1) + [];
      LeadingZeros(k - 1, []);
    }
  }

  lemma FourDigitsRead(n: nat)
    ensures Value(FourDigits(n)) == n && AllDigits(FourDigits(n)) && FourDigits(n) != []
  {
    DecimalReads(n);
    if |Decimal(n)| < 4 { LeadingZeros(4 - |Decimal(n)|, Decimal(n)); }
  }

  /** The identifier is the document's, the infix and the index in decimal, filled up with zeros to four digits. */
  lemma SectionIdFormat(docId: string, index: nat)
    ensures exists digits :: SectionId(docId, index) == docId + "_section_" + digits && AllDigits(digits) && Value(digits) == index
                             && |digits| >= 4 && (|digits| > 4 ==> digits[0] != '0')
  {
    FourDigitsRead(index);
    if index > 0 { NoLeadingZero(index); }
    assert SectionId(docId, index) == docId + "_section_" + FourDigits(index);
  }

  lemma {:induction false} NoLeadingZero(n: nat)
    requires n > 0
    ensures Decimal(n)[0] != '0'
  {
    if n >= 10 { NoLeadingZero(n / 10); }
  }

  /** The digits a text ends with. */
  function TrailingDigits(s: string): string {
    if s == [] || !IsDigit(s[|s| - 1]) then [] else TrailingDigits(s[..|s| - 1]) + [s[|s| - 1]]
  }

  lemma {:induction false} TrailingDigitsOf(pre: string, digits: string)
    requires pre != [] && !IsDigit(pre[|pre| - 1]) && AllDigits(digits)
    ensures TrailingDigits(pre + digits) == digits
  {
    if digits == [] {
      assert pre + digits == pre;
    } else {
      var s := pre + digits;
      assert s[..|s| - 1] == pre + digits[..|digits| - 1];
      TrailingDigitsOf(pre, digits[..|digits| - 1]);
    }
  }

  /** Reads a section identifier back. */
  function ReadId(id: string): (string, nat) {
    var digits := TrailingDigits(id);
    var n := |id| - |digits| - |INFIX|;
    (if 0 <= n <= |id| then id[..n] else [], Value(digits))
  }

  /** An identifier determines its document and its index, whatever the document's own identifier looks
      like and however large the index. */
  lemma SectionIdReads(docId: string, index: nat)
    ensures ReadId(SectionId(docId, index)) == (docId, index)
  {
    FourDigitsRead(index);
    var pre := docId + INFIX;
    assert pre[|pre| - 1] == '_';
    TrailingDigitsOf(pre, FourDigits(index));
    var id := pre + FourDigits(index);
    assert id[..|id| - |FourDigits(index)| - |INFIX|] == docId;
  }

  lemma SectionIdInjective(d1: string, i1: nat, d2: string, i2: nat)
    requires SectionId(d1, i1) == SectionId(d2, i2)
    ensures d1 == d2 && i1 == i2
  {
    SectionIdReads(d1, i1);
    SectionIdReads(d2, i2);
  }

  // ---- split ----

  function SectionOf(p: Piece, index: nat, job: Job, markdownUri: Option<string>): Section {
    Section(
      SectionId(job.docId, index), job.docId, p.content, "", [],
      if p.path == [] then "" else p.path[|p.path| - 1], p.path, index,
      markdownUri, Some(job.fileUri),
      map["document_type" := TextMeta(job.documentType), "language" := TextMeta(job.language),
          "heading_path" := PathMeta(p.path)])
  }

  function SectionsOfPieces(ps: seq<Piece>, job: Job, markdownUri: Option<string>): (r: seq<Section>)
    ensures |r| == |ps|
  {
    seq(|ps|, i requires 0 <= i < |ps| => SectionOf(ps[i], i, job, markdownUri))
  }

  /** Sections numbered from zero within one document, as the splitter hands them out; captioning and
      embedding keep these fields. */
  ghost predicate NumberedFor(ss: seq<Section>, docId: string) {
    forall i :: 0 <= i < |ss| ==> ss[i].id == SectionId(docId, i) && ss[i].docId == docId && ss[i].order == i
  }

  /** No two sections of a document share an identifier. */
  lemma DistinctSectionIds(ss: seq<Section>, docId: string)
    requires NumberedFor(ss, docId)
    ensures forall i, j :: 0 <= i < j < |ss| ==> ss[i].id != ss[j].id
  {
    forall i, j | 0 <= i < j < |ss|
      ensures ss[i].id != ss[j].id
    {
      if ss[i].id == ss[j].id {
        SectionIdInjective(docId, i, docId, j);
      }
    }
  }

  /** `HeadingSectionSplitter.split`. A text that is not blank always has a section, so the fallback for
      an empty result is never taken and has no counterpart here. */
  method SplitDocument(content: string, job: Job, markdownUri: Option<string>) returns (ss: seq<Section>)
    ensures ss == SectionsOfPieces(Split(content), job, markdownUri)
    ensures NumberedFor(ss, job.docId)
    ensures forall i, j :: 0 <= i < j < |ss| ==> ss[i].id != ss[j].id
  {
    var markdownText := Strip(content);
    if markdownText == [] {
      return [];
    }
    var pieces := SplitMarkdown(markdownText);
    ss := SectionsOfPieces(pieces, job, markdownUri);
    DistinctSectionIds(ss, job.docId);
  }
}
