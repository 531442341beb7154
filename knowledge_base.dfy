/**
 * The Dify knowledge-base tool: its configuration checks and the
 * formatting of a retrieval response into the text the agent reads.
 */
module KnowledgeBase {
  import opened Outcomes
  import opened Js

  /** The tool's settings once the constructor has read them. */
  datatype DifyConfig = DifyConfig(apiKey: string, datasetId: string, apiUrl: string)

  const DefaultApiUrl := "https://api.dify.ai/v1"
  const MissingApiKey := "DIFY_API_KEY" + " is not configured in environment variables"
  const MissingDatasetId := "DIFY_DATASET_ID" + " is not configured in environment variables"

  /** The constructor over the configured values: key and dataset id
      default to '' and must be non-empty, the key checked first; the URL
      falls back to the public endpoint only when it is not configured. */
  function NewDifyTool(env: map<string, string>): (r: Result<DifyConfig, string>)
    ensures r.Success? <==> "DIFY_API_KEY" in env && env["DIFY_API_KEY"] != ""
                            && "DIFY_DATASET_ID" in env && env["DIFY_DATASET_ID"] != ""
    ensures !("DIFY_API_KEY" in env && env["DIFY_API_KEY"] != "") ==> r == Failure(MissingApiKey)
    ensures ("DIFY_API_KEY" in env && env["DIFY_API_KEY"] != ""
             && !("DIFY_DATASET_ID" in env && env["DIFY_DATASET_ID"] != "")) ==> r == Failure(MissingDatasetId)
    ensures r.Success? ==> r.value.apiKey == env["DIFY_API_KEY"] && r.value.datasetId == env["DIFY_DATASET_ID"]
    ensures r.Success? ==> r.value.apiUrl == (if "DIFY_API_URL" in env then env["DIFY_API_URL"] else DefaultApiUrl)
  {
    var apiKey := if "DIFY_API_KEY" in env then env["DIFY_API_KEY"] else "";
    var datasetId := if "DIFY_DATASET_ID" in env then env["DIFY_DATASET_ID"] else "";
    var apiUrl := if "DIFY_API_URL" in env then env["DIFY_API_URL"] else DefaultApiUrl;
    if apiKey == "" then Failure(MissingApiKey)
    else if datasetId == "" then Failure(MissingDatasetId)
    else Success(DifyConfig(apiKey, datasetId, apiUrl))
  }

  const NoResults := "No" + " relevant information found in knowledge base for this query."
  const Separator := "\n\n---\n\n"

  /** A record that survives the two type guards. */
  predicate Kept(record: JsValue) {
    && Truthy(record) && IsObjectType(record)
    && Has(record, "segment") && Has(record, "score")
    && Truthy(Get(record, "segment")) && IsObjectType(Get(record, "segment"))
  }

  /** `score.toFixed(3)` for a number, 'N/A' for anything else. */
  function ScoreText(score: JsValue, fixed3: string -> string): string {
    if score.Number? then fixed3(score.text) else "N/A"
  }

  /** `segment.document?.name ?? 'Unknown Document'`. */
  function DocumentName(segment: JsValue): (name: string)
    ensures !(Get(segment, "document").Object? && "name" in Get(segment, "document").props)
            ==> name == "Unknown Document"
    ensures Get(segment, "document").Object? && Get(Get(segment, "document"), "name").Str?
            ==> name == Get(Get(segment, "document"), "name").s
  {
    var doc := Get(segment, "document");
    var name := if doc.Undefined? || doc.Null? then Undefined else Get(doc, "name");
    ToText(Coalesce(name, Str("Unknown Document")))
  }

  /** `segment.content ?? ''`, as the template prints it. */
  function ContentText(segment: JsValue): (content: string)
    ensures Get(segment, "content").Undefined? || Get(segment, "content").Null? ==> content == ""
    ensures Get(segment, "content").Str? ==> content == Get(segment, "content").s
  {
    ToText(Coalesce(Get(segment, "content"), Str("")))
  }

  /** The answer line, present only for a truthy answer. */
  function AnswerLine(segment: JsValue): (line: string)
    ensures line == "" <==> !Truthy(Get(segment, "answer"))
    ensures Get(segment, "answer").Str? && line != "" ==> line == "\nAnswer: " + Get(segment, "answer").s
  {
    var answer := Get(segment, "answer");
    if Truthy(answer) then "\nAnswer: " + ToText(answer) else ""
  }

  /** The template up to the last character that is not whitespace. */
  function Heading(index: nat, score: string): string {
    "Result " + Decimal(index + 1) + " (Score: " + score + ")\nDocument:"
  }

  /** The rest of the template. */
  function Tail(name: string, content: string, answer: string): string {
    " " + name + "\n" + content + answer + "\n"
  }

  /** The trimmed template for a kept record. */
  function Entry(index: nat, score: string, name: string, content: string, answer: string): string {
    Trim("\n" + Heading(index, score) + Tail(name, content, answer))
  }

  /** The callback `records.map` applies: '' for a dropped record, else the
      trimmed template numbered by the record's own position. */
  function FormatRecord(record: JsValue, index: nat, fixed3: string -> string): string {
    if !(Truthy(record) && IsObjectType(record) && Has(record, "segment") && Has(record, "score")) then ""
    else
      var segment := Get(record, "segment");
      if !(Truthy(segment) && IsObjectType(segment)) then ""
      else
        Entry(index, ScoreText(Get(record, "score"), fixed3), DocumentName(segment),
              ContentText(segment), AnswerLine(segment))
  }

  lemma HeadingShape(index: nat, score: string)
    ensures var h := Heading(index, score);
      && |h| > |"Result "| + |Decimal(index + 1)|
      && h[0] == 'R' && h[|h| - 1] == ':'
      && h[..|"Result "| + |Decimal(index + 1)|] == "Result " + Decimal(index + 1)
  {
    var d := Decimal(index + 1);
    var h := Heading(index, score);
    assert h == "Result " + (d + (" (Score: " + score + ")\nDocument:"));
  }

  /** The trim removes the leading newline and trailing whitespace only:
      an entry is its heading followed by the trimmed rest. */
  lemma EntryText(index: nat, score: string, name: string, content: string, answer: string)
    ensures Entry(index, score, name, content, answer)
              == Heading(index, score) + TrimEnd(Tail(name, content, answer))
  {
    var h := Heading(index, score);
    var t := Tail(name, content, answer);
    HeadingShape(index, score);
    var s := "\n" + h + t;
    assert s[1..] == h + t;
    assert (h + t)[0] == 'R';
    assert TrimStart(s) == h + t;
    TrimEndAfter(h, t);
  }

  /** A record is dropped exactly when a type guard refuses it, and a kept
      one opens with its 1-based position in the response. */
  lemma FormatRecordSpec(record: JsValue, index: nat, fixed3: string -> string)
    ensures FormatRecord(record, index, fixed3) == "" <==> !Kept(record)
    ensures Kept(record) ==>
      var r := FormatRecord(record, index, fixed3);
      && r[0] == 'R'
      && |r| > |"Result "| + |Decimal(index + 1)|
      && r[..|"Result "| + |Decimal(index + 1)|] == "Result " + Decimal(index + 1)
  {
    if Kept(record) {
      var segment := Get(record, "segment");
      var score := ScoreText(Get(record, "score"), fixed3);
      EntryText(index, score, DocumentName(segment), ContentText(segment), AnswerLine(segment));
      HeadingShape(index, score);
    }
  }

  /** `records.map(...)`: each record formatted with its own index. */
  function Formatted(records: seq<JsValue>, fixed3: string -> string): (fs: seq<string>)
    ensures |fs| == |records|
    ensures forall i | 0 <= i < |records| :: fs[i] == FormatRecord(records[i], i, fixed3)
    decreases |records|
  {
    if records == [] then []
    else Formatted(records[..|records| - 1], fixed3) + [FormatRecord(records[|records| - 1], |records| - 1, fixed3)]
  }

  /** `.filter((r) => r !== '')`. */
  function NonEmpty(strings: seq<string>): seq<string>
    decreases |strings|
  {
    if strings == [] then []
    else NonEmpty(strings[..|strings| - 1]) + (if strings[|strings| - 1] != "" then [strings[|strings| - 1]] else [])
  }

  /** The positions of the non-empty strings, in order. */
  function NonEmptyPositions(strings: seq<string>): (ps: seq<nat>)
    ensures forall j | 0 <= j < |ps| :: ps[j] < |strings|
    decreases |strings|
  {
    if strings == [] then []
    else NonEmptyPositions(strings[..|strings| - 1]) + (if strings[|strings| - 1] != "" then [|strings| - 1] else [])
  }

  /** The filter keeps the non-empty strings at their positions, in order. */
  lemma {:induction false} NonEmptyAt(strings: seq<string>)
    ensures var ps := NonEmptyPositions(strings);
      && |NonEmpty(strings)| == |ps|
      && forall j | 0 <= j < |ps| :: NonEmpty(strings)[j] == strings[ps[j]] != ""
    decreases |strings|
  {
    if strings != [] {
      var init := strings[..|strings| - 1];
      NonEmptyAt(init);
      var ps := NonEmptyPositions(strings);
      forall j | 0 <= j < |ps| ensures NonEmpty(strings)[j] == strings[ps[j]] != "" {
        if j < |NonEmptyPositions(init)| {
          assert strings[ps[j]] == init[ps[j]];
        }
      }
    }
  }

  /** The positions of the records the guards keep, in order. */
  function KeptPositions(records: seq<JsValue>): (ks: seq<nat>)
    ensures forall j | 0 <= j < |ks| :: ks[j] < |records| && Kept(records[ks[j]])
    decreases |records|
  {
    if records == [] then []
    else KeptPositions(records[..|records| - 1]) + (if Kept(records[|records| - 1]) then [|records| - 1] else [])
  }

  /** The formatter empties exactly the records the guards drop. */
  lemma {:induction false} KeptPositionsAreNonEmpty(records: seq<JsValue>, fixed3: string -> string)
    ensures KeptPositions(records) == NonEmptyPositions(Formatted(records, fixed3))
    decreases |records|
  {
    if records != [] {
      var n := |records| - 1;
      var fs := Formatted(records, fixed3);
      KeptPositionsAreNonEmpty(records[..n], fixed3);
      assert fs[..n] == Formatted(records[..n], fixed3);
      FormatRecordSpec(records[n], n, fixed3);
    }
  }

  /** The entries that reach the join: one per kept record, in response
      order, each numbered by that record's original position. */
  lemma FilteredEntries(records: seq<JsValue>, fixed3: string -> string)
    ensures var ks := KeptPositions(records);
      var es := NonEmpty(Formatted(records, fixed3));
      && |es| == |ks|
      && forall j | 0 <= j < |ks| :: es[j] == FormatRecord(records[ks[j]], ks[j], fixed3)
  {
    KeptPositionsAreNonEmpty(records, fixed3);
    NonEmptyAt(Formatted(records, fixed3));
  }

  predicate Increasing(ks: seq<nat>) {
    forall i, j | 0 <= i < j < |ks| :: ks[i] < ks[j]
  }

  /** Dropped records leave gaps: no two entries share a number, and the
      numbers increase. */
  lemma {:induction false} KeptPositionsIncrease(records: seq<JsValue>)
    ensures Increasing(KeptPositions(records))
    decreases |records|
  {
    if records != [] {
      var init := records[..|records| - 1];
      KeptPositionsIncrease(init);
      var ks := KeptPositions(records);
      var ki := KeptPositions(init);
      assert ks == ki + (if Kept(records[|records| - 1]) then [|records| - 1] else []);
      forall i, j | 0 <= i < j < |ks| ensures ks[i] < ks[j] {
        assert ks[i] == ki[i] < |init|;
        if j < |ki| {
          assert ks[j] == ki[j];
        } else {
          assert ks[j] == |records| - 1;
        }
      }
    }
  }

  /** formatResults once the records array has been found. */
  function FormatRecords(records: seq<JsValue>, fixed3: string -> string): string {
    if |records| == 0 then NoResults
    else
      var valid := NonEmpty(Formatted(records, fixed3));
      if |valid| > 0 then Join(valid, Separator) else NoResults
  }

  /** formatResults. */
  function FormatResults(data: JsValue, fixed3: string -> string): string {
    if !(Truthy(data) && IsObjectType(data) && Has(data, "records") && Get(data, "records").Array?) then NoResults
    else FormatRecords(Get(data, "records").items, fixed3)
  }

  /** A joined list opens with its first element. */
  lemma {:induction false} JoinStartsWithFirst(strings: seq<string>, sep: string)
    requires |strings| > 0
    ensures |Join(strings, sep)| >= |strings[0]| && Join(strings, sep)[..|strings[0]|] == strings[0]
  {
    if |strings| > 1 {
      assert Join(strings, sep) == strings[0] + (sep + Join(strings[1..], sep));
    }
  }

  /** Input without an array of records reads as "no results". */
  lemma FormatResultsMalformed(data: JsValue, fixed3: string -> string)
    ensures !(IsObjectType(data) && Has(data, "records") && Get(data, "records").Array?) ==>
              FormatResults(data, fixed3) == NoResults
  {
  }

  /** Entries never read as "no results": each opens with "Result". */
  lemma JoinedEntriesDiffer(es: seq<string>)
    requires |es| > 0 && |es[0]| > 0 && es[0][0] == 'R'
    ensures Join(es, Separator) != NoResults
  {
    JoinStartsWithFirst(es, Separator);
    assert Join(es, Separator)[0] == 'R';
    assert NoResults[0] == 'N';
  }

  /** The first entry to reach the join opens with "Result". */
  lemma FirstEntryOpensWithResult(records: seq<JsValue>, fixed3: string -> string)
    requires |KeptPositions(records)| > 0
    ensures var es := NonEmpty(Formatted(records, fixed3));
      |es| > 0 && |es[0]| > 0 && es[0][0] == 'R'
  {
    FilteredEntries(records, fixed3);
    var ks := KeptPositions(records);
    var es := NonEmpty(Formatted(records, fixed3));
    FormatRecordSpec(records[ks[0]], ks[0], fixed3);
  }

  /** An empty array, and an array whose every record is dropped, read as
      "no results"; anything else is the kept entries joined by the
      separator, never that text. */
  lemma FormatRecordsSpec(records: seq<JsValue>, fixed3: string -> string)
    ensures |KeptPositions(records)| == 0 ==> FormatRecords(records, fixed3) == NoResults
    ensures |KeptPositions(records)| > 0 ==>
      && FormatRecords(records, fixed3) == Join(NonEmpty(Formatted(records, fixed3)), Separator)
      && FormatRecords(records, fixed3) != NoResults
  {
    FilteredEntries(records, fixed3);
    if |KeptPositions(records)| > 0 {
      FirstEntryOpensWithResult(records, fixed3);
      JoinedEntriesDiffer(NonEmpty(Formatted(records, fixed3)));
    }
  }

  /** formatResults on a response that carries a records array. */
  lemma FormatResultsSpec(data: JsValue, fixed3: string -> string)
    requires IsObjectType(data) && Has(data, "records") && Get(data, "records").Array?
    ensures FormatResults(data, fixed3) == FormatRecords(Get(data, "records").items, fixed3)
  {
  }
}
