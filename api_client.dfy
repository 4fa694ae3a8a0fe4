/** The registry client's own logic around its one HTTP request: the query
    parameters and headers it sends, the way it picks the patient list out
    of the decoded body, how it looks up a field under its aliases, and the
    text it lays the patients out in. The request itself is not modelled:
    its outcome (status, decoded body, body text, or a network error) is an
    argument. */
module ApiClient {
  import opened Wrappers
  import opened Text
  import opened Json

  // ---------------------------------------------------------------------
  // Configuration tables

  /** The names under which each standard field may appear in a record,
      in the order they are tried. */
  const FieldMapping: map<string, seq<string>> := map[
    "id" := ["id", "patient_id", "patientId", "PatientId", "ID"],
    "name" := ["name", "patient_name", "fullName", "full_name", "Name"],
    "age" := ["age", "patient_age", "Age"],
    "diagnosis" := ["diagnosis", "Diagnosis", "condition", "medical_condition"],
    "medications" := ["medications", "Medications", "meds", "drugs", "prescriptions"],
    "allergies" := ["allergies", "Allergies", "allergy_list", "medical_allergies"],
    "last_updated" := ["last_updated", "LastUpdated", "lastUpdated", "updated_at", "modified_date"],
    "department" := ["department", "dept", "department_name"],
    "status" := ["status", "patient_status", "state"],
    "admission_date" := ["admission_date", "admissionDate", "admitted", "date_admitted"]
  ]

  /** Query parameter names for the tool's arguments. */
  const QueryParamMapping: map<string, string> := map["patient_name" := "name"]

  /** The configured authentication settings: type "None" (a string)
      means no authentication header. */
  const AuthConfig: map<string, string> := map[
    "type" := "None",
    "token" := "YOUR_API_TOKEN_HERE",
    "header_name" := "Authorization"
  ]

  // ---------------------------------------------------------------------
  // Field lookup

  const NotAvailable: string := "N/A"
  const UnknownName: string := "Unknown"

  function Aliases(field: string): seq<string> {
    if field in FieldMapping then FieldMapping[field] else [field]
  }

  /** `name in record and record[name] is not None`. */
  predicate Present(record: seq<Member>, name: string) {
    Lookup(record, name).Some? && Lookup(record, name).value != JNull
  }

  /** The value under the first of `names[from..]` that is present. */
  function FirstPresentFrom(record: seq<Member>, names: seq<string>, from: nat): (r: Option<nat>)
    ensures r.Some? ==> from <= r.value < |names| && Present(record, names[r.value])
    ensures r.Some? ==> forall j :: from <= j < r.value ==> !Present(record, names[j])
    ensures r.None? ==> forall j :: from <= j < |names| ==> !Present(record, names[j])
    decreases |names| - from
  {
    if from >= |names| then None
    else if Present(record, names[from]) then Some(from)
    else FirstPresentFrom(record, names, from + 1)
  }

  /** What a field shows when no alias is present. */
  function Missing(field: string): string {
    if field != "name" then NotAvailable else UnknownName
  }

  /** `_get_field_value`: the value of the first alias present with a
      non-null value, or the placeholder for a missing field. */
  function GetFieldValue(record: seq<Member>, field: string): Json {
    match FirstPresentFrom(record, Aliases(field), 0)
    case Some(i) => Lookup(record, Aliases(field)[i]).value
    case None => JStr(Missing(field))
  }

  /** `i` is the first position of `names` holding a present alias. */
  predicate IsFirstPresent(record: seq<Member>, names: seq<string>, i: nat) {
    i < |names| && Present(record, names[i]) && forall j :: 0 <= j < i ==> !Present(record, names[j])
  }

  /** A found value is the non-null value of the first alias present (an
      unmapped field is its own only alias); with no alias present the
      value is "Unknown" for the name and "N/A" for any other field. */
  lemma GetFieldValueSpec(record: seq<Member>, field: string)
    ensures field !in FieldMapping ==> Aliases(field) == [field]
    ensures (exists i: nat :: IsFirstPresent(record, Aliases(field), i)) ==>
      exists i: nat :: IsFirstPresent(record, Aliases(field), i)
        && Some(GetFieldValue(record, field)) == Lookup(record, Aliases(field)[i])
        && GetFieldValue(record, field) != JNull
    ensures (forall i :: 0 <= i < |Aliases(field)| ==> !Present(record, Aliases(field)[i])) ==>
      GetFieldValue(record, field) == JStr(if field == "name" then UnknownName else NotAvailable)
  {
    var names := Aliases(field);
    match FirstPresentFrom(record, names, 0)
    case Some(i) =>
      assert IsFirstPresent(record, names, i);
    case None =>
  }

  // ---------------------------------------------------------------------
  // Laying out the patient list

  const NoPatientsText: string := "No patients found " + "matching the specified criteria."

  const PatientLabel: string := "\U{1F4CB} Patient #"
  const NameLabel: string := "   \U{1F464} Name: "
  const IdLabel: string := "   \U{1F194} ID: "
  const AgeLabel: string := "   \U{1F382} Age: "
  const DiagnosisLabel: string := "   \U{1F3E5} Diagnosis: "
  const MedicationsLabel: string := "   \U{1F48A} Medications: "
  const AllergiesLabel: string := "   \U{26A0}\U{FE0F}  Allergies: "
  const LastUpdatedLabel: string := "   \U{1F4C5} Last Updated: "
  const DepartmentLabel: string := "   \U{1F3E2} Department: "
  const StatusLabel: string := "   \U{1F4CA} Status: "
  const AdmittedLabel: string := "   \U{1F4C6} Admitted: "

  function CountHeader(n: nat): string {
    "Found " + NatToString(n) + " patient(s):\n"
  }

  /** The strings of a list, or the position and type of its first item
      that is not a string. */
  function ListStrings(items: seq<Json>): (r: Result<seq<string>, (nat, string)>)
    ensures r.Success? ==> |r.value| == |items| && forall k :: 0 <= k < |items| ==> items[k] == JStr(r.value[k])
    ensures r.Failure? ==>
      && r.error.0 < |items| && !items[r.error.0].JStr?
      && r.error.1 == TypeName(items[r.error.0])
      && forall k :: 0 <= k < r.error.0 ==> items[k].JStr?
  {
    if items == [] then Success([])
    else
      var last := items[|items| - 1];
      match ListStrings(items[..|items| - 1])
      case Failure(e) => Failure(e)
      case Success(strs) =>
        if last.JStr? then Success(strs + [last.s]) else Failure((|items| - 1, TypeName(last)))
  }

  /** How medications and allergies are shown: a list is joined with ", "
      and fails on its first item that is not a string; anything else is
      shown with `str`. */
  function ListText(v: Json): Result<string, string> {
    match v
    case JList(items) =>
      (match ListStrings(items)
       case Success(strs) => Success(Join(strs, ", "))
       case Failure((k, t)) => Failure("sequence item " + NatToString(k) + ": expected str instance, " + t + " found"))
    case _ => Success(PyStr(v))
  }

  /** How department and status are shown: title-cased, which only a
      string supports. */
  function TitleText(v: Json): Result<string, string> {
    if v.JStr? then Success(Title(v.s)) else Failure("'" + TypeName(v) + "' object has no attribute 'title'")
  }

  /** One optional line: its label, the looked-up value that decides
      whether it is shown, and the value's text (or the error it raises). */
  datatype LineSpec = LineSpec(caption: string, value: Json, rendered: Result<string, string>)

  predicate Shows(spec: LineSpec) {
    spec.value != JStr(NotAvailable)
  }

  /** The optional lines, in the order they are written, for the values
      looked up for them. */
  function LineSpecs(diagnosis: Json, medications: Json, allergies: Json, lastUpdated: Json,
                     department: Json, status: Json, admitted: Json): seq<LineSpec> {
    [ LineSpec(DiagnosisLabel, diagnosis, Success(PyStr(diagnosis))),
      LineSpec(MedicationsLabel, medications, ListText(medications)),
      LineSpec(AllergiesLabel, allergies, ListText(allergies)),
      LineSpec(LastUpdatedLabel, lastUpdated, Success(PyStr(lastUpdated))),
      LineSpec(DepartmentLabel, department, TitleText(department)),
      LineSpec(StatusLabel, status, TitleText(status)),
      LineSpec(AdmittedLabel, admitted, Success(PyStr(admitted))) ]
  }

  /** The optional lines of a record. */
  function OptionalSpecs(record: seq<Member>): seq<LineSpec> {
    LineSpecs(
      GetFieldValue(record, "diagnosis"), GetFieldValue(record, "medications"),
      GetFieldValue(record, "allergies"), GetFieldValue(record, "last_updated"),
      GetFieldValue(record, "department"), GetFieldValue(record, "status"),
      GetFieldValue(record, "admission_date"))
  }

  /** The specs whose line is shown, in order. */
  function Shown(specs: seq<LineSpec>): (r: seq<LineSpec>)
    ensures |r| <= |specs|
  {
    if specs == [] then []
    else (if Shows(specs[0]) then [specs[0]] else []) + Shown(specs[1..])
  }

  /** The shown specs are exactly those of `specs` that show, in their order. */
  lemma {:induction false} ShownSpec(specs: seq<LineSpec>)
    ensures forall s :: s in Shown(specs) <==> s in specs && Shows(s)
    ensures IsSubsequence(Shown(specs), specs)
  {
    if specs != [] {
      var rest := Shown(specs[1..]);
      ShownSpec(specs[1..]);
      if Shows(specs[0]) {
        assert Shown(specs) == [specs[0]] + rest;
        assert ([specs[0]] + rest)[1..] == rest;
      } else {
        assert Shown(specs) == rest;
        if rest != [] {
          SubsequenceOfTail(rest, specs);
        }
      }
      forall s | s in specs && Shows(s)
        ensures s in Shown(specs)
      {
        if s != specs[0] {
          var k :| 0 <= k < |specs| && specs[k] == s;
          assert specs[1..][k - 1] == s;
        }
      }
    }
  }

  /** The shown lines, or the first error raised while writing them. */
  function Collect(specs: seq<LineSpec>): Result<seq<string>, string> {
    if specs == [] then Success([])
    else if !Shows(specs[0]) then Collect(specs[1..])
    else match specs[0].rendered
      case Failure(e) => Failure(e)
      case Success(text) =>
        match Collect(specs[1..])
        case Failure(e) => Failure(e)
        case Success(rest) => Success([specs[0].caption + text] + rest)
  }

  /** Writing fails exactly when a shown line fails; otherwise there is one
      line per shown spec, in order, made of its caption and its text. */
  lemma {:induction false} CollectSpec(specs: seq<LineSpec>)
    ensures Collect(specs).Failure? <==> exists k :: 0 <= k < |specs| && Shows(specs[k]) && specs[k].rendered.Failure?
    ensures Collect(specs).Success? ==>
      var lines, shown := Collect(specs).value, Shown(specs);
      |lines| == |shown| && forall k :: 0 <= k < |shown| ==>
        shown[k].rendered.Success? && lines[k] == shown[k].caption + shown[k].rendered.value
  {
    if specs != [] {
      CollectSpec(specs[1..]);
      if Collect(specs[1..]).Failure? {
        var k :| 0 <= k < |specs[1..]| && Shows(specs[1..][k]) && specs[1..][k].rendered.Failure?;
        assert specs[k + 1] == specs[1..][k];
      }
      if exists k :: 0 <= k < |specs| && Shows(specs[k]) && specs[k].rendered.Failure? {
        var k :| 0 <= k < |specs| && Shows(specs[k]) && specs[k].rendered.Failure?;
        if k > 0 {
          assert specs[1..][k - 1] == specs[k];
        }
      }
    }
  }

  /** The lines every patient gets: number, name, id and age. */
  function FixedLines(number: nat, record: seq<Member>): seq<string> {
    [ PatientLabel + NatToString(number),
      NameLabel + PyStr(GetFieldValue(record, "name")),
      IdLabel + PyStr(GetFieldValue(record, "id")),
      AgeLabel + PyStr(GetFieldValue(record, "age")) ]
  }

  /** A block: the fixed lines, the shown optional lines, an empty line. */
  function Block(fixed: seq<string>, specs: seq<LineSpec>): Result<seq<string>, string> {
    match Collect(specs)
    case Failure(e) => Failure(e)
    case Success(optional) => Success(fixed + optional + [""])
  }

  /** The lines of patient number `number`. */
  function PatientBlock(number: nat, record: seq<Member>): Result<seq<string>, string> {
    Block(FixedLines(number, record), OptionalSpecs(record))
  }

  /** The block of each record, patient `k + 1` being `records[k]`. */
  function BlockResults(records: seq<seq<Member>>): (r: seq<Result<seq<string>, string>>)
    ensures |r| == |records|
  {
    Numbered(records, PatientBlock)
  }

  /** `f(k + 1, records[k])` for each position `k`. */
  function Numbered<T>(records: seq<seq<Member>>, f: (nat, seq<Member>) -> T): (r: seq<T>)
    ensures |r| == |records|
  {
    seq(|records|, k requires 0 <= k < |records| => f(k + 1, records[k]))
  }

  /** Position `k` holds item `k + 1`. */
  lemma NumberedAt<T>(records: seq<seq<Member>>, f: (nat, seq<Member>) -> T, k: nat)
    requires k < |records|
    ensures Numbered(records, f)[k] == f(k + 1, records[k])
  {
  }

  /** The lines of all blocks in order, or the first error. */
  function Concat(blocks: seq<Result<seq<string>, string>>): Result<seq<string>, string> {
    if blocks == [] then Success([])
    else
      match Concat(blocks[..|blocks| - 1])
      case Failure(e) => Failure(e)
      case Success(before) =>
        match blocks[|blocks| - 1]
        case Failure(e) => Failure(e)
        case Success(block) => Success(before + block)
  }

  /** The blocks of all records, numbered from 1, or the first error. */
  function Blocks(records: seq<seq<Member>>): Result<seq<string>, string> {
    Concat(BlockResults(records))
  }

  /** `_format_patient_list`: the text, or the message of the exception it raises. */
  function FormatSpec(records: seq<seq<Member>>): Result<string, string> {
    if records == [] then Success(NoPatientsText)
    else
      match Blocks(records)
      case Failure(e) => Failure(e)
      case Success(lines) => Success(Join([CountHeader(|records|)] + lines, "\n"))
  }

  /** A block that is written starts with the fixed lines, then has one
      line per shown optional field in the given order, and ends with an
      empty line; it fails exactly when a shown optional field fails. */
  lemma BlockSpec(fixed: seq<string>, specs: seq<LineSpec>)
    ensures Block(fixed, specs).Failure? <==>
      exists k :: 0 <= k < |specs| && Shows(specs[k]) && specs[k].rendered.Failure?
    ensures Block(fixed, specs).Success? ==>
      var lines, shown := Block(fixed, specs).value, Shown(specs);
      && |lines| == |fixed| + |shown| + 1
      && lines[..|fixed|] == fixed
      && (forall k :: 0 <= k < |shown| ==>
            shown[k].rendered.Success? && lines[|fixed| + k] == shown[k].caption + shown[k].rendered.value)
      && lines[|lines| - 1] == ""
  {
    CollectSpec(specs);
  }

  /** A list value makes `", ".join` raise: one of its items is not a string. */
  predicate JoinFails(v: Json) {
    v.JList? && exists k :: 0 <= k < |v.items| && !v.items[k].JStr?
  }

  /** A list of strings is joined with ", "; a list holding anything else
      fails naming the first such item's position and type; any other
      value is shown with `str`. */
  lemma ListTextSpec(v: Json)
    ensures ListText(v).Failure? <==> JoinFails(v)
    ensures v.JList? && !JoinFails(v) ==>
      exists strs :: |strs| == |v.items| && (forall k :: 0 <= k < |strs| ==> v.items[k] == JStr(strs[k]))
        && ListText(v) == Success(Join(strs, ", "))
    ensures !v.JList? ==> ListText(v) == Success(PyStr(v))
  {
    if v.JList? && ListStrings(v.items).Success? {
      var strs := ListStrings(v.items).value;
      assert |strs| == |v.items| && (forall k :: 0 <= k < |strs| ==> v.items[k] == JStr(strs[k]));
    }
  }

  /** Writing the optional lines fails exactly when the medications or
      allergies are a list holding a non-string, or the department or
      status is not a string. */
  lemma LineSpecsFailure(diagnosis: Json, medications: Json, allergies: Json, lastUpdated: Json,
                         department: Json, status: Json, admitted: Json)
    ensures var specs := LineSpecs(diagnosis, medications, allergies, lastUpdated, department, status, admitted);
      (exists k :: 0 <= k < |specs| && Shows(specs[k]) && specs[k].rendered.Failure?) <==>
      JoinFails(medications) || JoinFails(allergies) || !department.JStr? || !status.JStr?
  {
    var specs := LineSpecs(diagnosis, medications, allergies, lastUpdated, department, status, admitted);
    ListTextSpec(medications);
    ListTextSpec(allergies);
    if JoinFails(medications) {
      assert Shows(specs[1]) && specs[1].rendered.Failure?;
    } else if JoinFails(allergies) {
      assert Shows(specs[2]) && specs[2].rendered.Failure?;
    } else if !department.JStr? {
      assert Shows(specs[4]) && specs[4].rendered.Failure?;
    } else if !status.JStr? {
      assert Shows(specs[5]) && specs[5].rendered.Failure?;
    }
  }

  /** A patient's block fails exactly when its medications or allergies are
      a list holding a non-string, or its department or status is present
      but not a string (which has no `title`). */
  lemma PatientBlockSpec(number: nat, record: seq<Member>)
    ensures PatientBlock(number, record).Failure? <==>
      || JoinFails(GetFieldValue(record, "medications"))
      || JoinFails(GetFieldValue(record, "allergies"))
      || !GetFieldValue(record, "department").JStr?
      || !GetFieldValue(record, "status").JStr?
  {
    BlockSpec(FixedLines(number, record), OptionalSpecs(record));
    LineSpecsFailure(
      GetFieldValue(record, "diagnosis"), GetFieldValue(record, "medications"),
      GetFieldValue(record, "allergies"), GetFieldValue(record, "last_updated"),
      GetFieldValue(record, "department"), GetFieldValue(record, "status"),
      GetFieldValue(record, "admission_date"));
  }

  /** A written patient block holds the "Patient #number", name, id and
      age lines first, one line per shown optional field next, and an
      empty line last. */
  lemma PatientBlockShape(number: nat, record: seq<Member>)
    requires PatientBlock(number, record).Success?
    ensures var lines := PatientBlock(number, record).value;
      && |lines| == 5 + |Shown(OptionalSpecs(record))|
      && lines[0] == PatientLabel + NatToString(number)
      && lines[1] == NameLabel + PyStr(GetFieldValue(record, "name"))
      && lines[2] == IdLabel + PyStr(GetFieldValue(record, "id"))
      && lines[3] == AgeLabel + PyStr(GetFieldValue(record, "age"))
      && lines[|lines| - 1] == ""
  {
    BlockOfFourFixed(FixedLines(number, record), OptionalSpecs(record));
  }

  /** A written block with four fixed lines starts with them and ends
      with an empty line. */
  lemma BlockOfFourFixed(fixed: seq<string>, specs: seq<LineSpec>)
    requires |fixed| == 4 && Block(fixed, specs).Success?
    ensures var lines := Block(fixed, specs).value;
      && |lines| == 5 + |Shown(specs)|
      && lines[0] == fixed[0] && lines[1] == fixed[1] && lines[2] == fixed[2] && lines[3] == fixed[3]
      && lines[|lines| - 1] == ""
  {
    BlockSpec(fixed, specs);
    var lines := Block(fixed, specs).value;
    assert lines[..4] == fixed;
    assert lines[..4][0] == lines[0] && lines[..4][1] == lines[1] && lines[..4][2] == lines[2] && lines[..4][3] == lines[3];
  }

  /** The lines are written exactly when every block is. */
  lemma {:induction false} ConcatSuccessIff(blocks: seq<Result<seq<string>, string>>)
    ensures Concat(blocks).Success? <==> forall k :: 0 <= k < |blocks| ==> blocks[k].Success?
  {
    if blocks != [] {
      var n := |blocks| - 1;
      ConcatSuccessIff(blocks[..n]);
      assert forall k :: 0 <= k < n ==> blocks[..n][k] == blocks[k];
    }
  }

  /** When writing fails, the error is that of the first failing block. */
  lemma {:induction false} ConcatFirstFailure(blocks: seq<Result<seq<string>, string>>)
    requires Concat(blocks).Failure?
    ensures exists k ::
      && 0 <= k < |blocks|
      && blocks[k] == Failure(Concat(blocks).error)
      && (forall j :: 0 <= j < k ==> blocks[j].Success?)
  {
    var n := |blocks| - 1;
    var prefix := blocks[..n];
    assert forall k :: 0 <= k < n ==> prefix[k] == blocks[k];
    if Concat(prefix).Failure? {
      ConcatFirstFailure(prefix);
      var k :| 0 <= k < n && prefix[k] == Failure(Concat(prefix).error)
        && (forall j :: 0 <= j < k ==> prefix[j].Success?);
      assert blocks[k] == Failure(Concat(blocks).error);
    } else {
      ConcatSuccessIff(prefix);
      assert blocks[n] == Failure(Concat(blocks).error);
    }
  }

  /** When writing succeeds, the lines of the first `i` blocks come first. */
  lemma {:induction false} ConcatPrefix(blocks: seq<Result<seq<string>, string>>, i: nat)
    requires i <= |blocks|
    requires Concat(blocks).Success?
    ensures Concat(blocks[..i]).Success?
    ensures Concat(blocks[..i]).value <= Concat(blocks).value
    decreases |blocks| - i
  {
    if i < |blocks| {
      var n := |blocks| - 1;
      assert blocks[..n][..i] == blocks[..i];
      assert blocks[..|blocks|] == blocks;
      ConcatPrefix(blocks[..n], i);
    } else {
      assert blocks[..i] == blocks;
    }
  }

  /** A written list with patients starts with the count header. */
  lemma FormatStartsWithHeader(records: seq<seq<Member>>)
    requires records != [] && Blocks(records).Success?
    ensures FormatSpec(records).Success?
    ensures IsPrefix(CountHeader(|records|), FormatSpec(records).value)
  {
    JoinStartsWithFirst([CountHeader(|records|)] + Blocks(records).value, "\n");
  }

  /** An empty list, and only an empty list, gets the no-patients text. */
  lemma NoPatientsTextIff(records: seq<seq<Member>>)
    ensures FormatSpec(records) == Success(NoPatientsText) <==> records == []
  {
    if records != [] && Blocks(records).Success? {
      var header := CountHeader(|records|);
      var text := FormatSpec(records).value;
      FormatStartsWithHeader(records);
      assert text[0] == header[0] == 'F';
      assert NoPatientsText[0] == 'N';
    }
  }

  /** `_format_patient_list`, appending line by line. */
  method FormatPatientList(records: seq<seq<Member>>) returns (r: Result<string, string>)
    ensures r == FormatSpec(records)
  {
    if records == [] {
      return Success(NoPatientsText);
    }
    ghost var blocks := BlockResults(records);
    var lines := [];
    var i := 0;
    while i < |records|
      invariant 0 <= i <= |records|
      invariant Concat(blocks[..i]) == Success(lines)
    {
      BlocksStep(blocks, i);
      BlockResultsAt(records, i);
      var block := PatientBlock(i + 1, records[i]);
      if block.Failure? {
        BlocksFailurePersists(blocks, i + 1);
        return Failure(block.error);
      }
      lines := lines + block.value;
      i := i + 1;
    }
    assert blocks[..i] == blocks;
    r := Success(Join([CountHeader(|records|)] + lines, "\n"));
  }

  /** The block of patient `k + 1`. */
  lemma BlockResultsAt(records: seq<seq<Member>>, k: nat)
    requires k < |records|
    ensures BlockResults(records)[k] == PatientBlock(k + 1, records[k])
  {
    NumberedAt(records, PatientBlock, k);
  }

  /** One more block: its lines are appended, or the first error stays. */
  lemma BlocksStep(blocks: seq<Result<seq<string>, string>>, i: nat)
    requires i < |blocks|
    ensures var before := Concat(blocks[..i]);
      Concat(blocks[..i + 1]) ==
        if before.Failure? then before
        else if blocks[i].Failure? then Failure(blocks[i].error)
        else Success(before.value + blocks[i].value)
  {
    assert blocks[..i + 1][..i] == blocks[..i];
  }

  /** Once a prefix fails, every longer prefix fails with the same error. */
  lemma {:induction false} BlocksFailurePersists(blocks: seq<Result<seq<string>, string>>, n: nat)
    requires 0 < n <= |blocks|
    requires Concat(blocks[..n]).Failure?
    ensures Concat(blocks) == Concat(blocks[..n])
    decreases |blocks| - n
  {
    if n < |blocks| {
      assert blocks[..n + 1][..n] == blocks[..n];
      BlocksFailurePersists(blocks, n + 1);
    } else {
      assert blocks[..n] == blocks;
    }
  }

  // ---------------------------------------------------------------------
  // The request

  /** `min(max(limit, 1), 100)`. */
  function Clamp(limit: int): (r: int)
    ensures 1 <= r <= 100
    ensures 1 <= limit <= 100 ==> r == limit
    ensures limit < 1 ==> r == 1
    ensures limit > 100 ==> r == 100
  {
    var atLeastOne := if limit > 1 then limit else 1;
    if atLeastOne < 100 then atLeastOne else 100
  }

  const LimitParam: string := "limit"

  /** The query parameters: the name, under its configured parameter name,
      only for a non-empty name; the limit always, clamped. */
  function BuildParams(patientName: Option<string>, limit: int): map<string, Json> {
    var named: map<string, Json> :=
      if patientName.Some? && patientName.value != "" then
        map[(if "patient_name" in QueryParamMapping then QueryParamMapping["patient_name"] else "name") := JStr(patientName.value)]
      else map[];
    named[LimitParam := JInt(Clamp(limit))]
  }

  /** The parameters filled in one by one. */
  method QueryParams(patientName: Option<string>, limit: int) returns (params: map<string, Json>)
    ensures params == BuildParams(patientName, limit)
  {
    params := map[];
    if patientName.Some? && patientName.value != "" {
      var paramName := if "patient_name" in QueryParamMapping then QueryParamMapping["patient_name"] else "name";
      params := params[paramName := JStr(patientName.value)];
    }
    params := params[LimitParam := JInt(Clamp(limit))];
  }

  /** The limit is always sent, clamped to 1..100; the name is sent under
      "name" exactly when it is non-empty; nothing else is sent. */
  lemma BuildParamsSpec(patientName: Option<string>, limit: int)
    ensures var p := BuildParams(patientName, limit);
      && LimitParam in p && p[LimitParam] == JInt(Clamp(limit))
      && ("name" in p <==> patientName.Some? && patientName.value != "")
      && ("name" in p ==> p["name"] == JStr(patientName.value))
      && p.Keys <= {"name", LimitParam}
  {
  }

  function Get(m: map<string, string>, key: string): Option<string> {
    if key in m then Some(m[key]) else None
  }

  predicate TokenSet(auth: map<string, string>) {
    Get(auth, "token").Some? && Get(auth, "token").value != ""
  }

  /** `_get_headers`. */
  function Headers(auth: map<string, string>): map<string, string> {
    var headers := map["Content-Type" := "application/json"];
    if Get(auth, "type") == Some("bearer") && TokenSet(auth) then
      headers["Authorization" := "Bearer " + auth["token"]]
    else if Get(auth, "type") == Some("api_key") && TokenSet(auth) then
      headers[Get(auth, "header_name").GetOr("X-API-Key") := auth["token"]]
    else
      headers
  }

  /** `_get_headers`, filling the headers one by one. */
  method GetHeaders(auth: map<string, string>) returns (headers: map<string, string>)
    ensures headers == Headers(auth)
  {
    headers := map["Content-Type" := "application/json"];
    var authType := Get(auth, "type");
    if authType == Some("bearer") && TokenSet(auth) {
      headers := headers["Authorization" := "Bearer " + auth["token"]];
    } else if authType == Some("api_key") && TokenSet(auth) {
      var headerName := Get(auth, "header_name").GetOr("X-API-Key");
      headers := headers[headerName := auth["token"]];
    }
  }

  /** The content type is always sent; a bearer token adds an
      Authorization header, an API key adds its header (X-API-Key unless
      configured), and any other setting adds nothing. */
  lemma HeadersSpec(auth: map<string, string>)
    ensures "Content-Type" in Headers(auth)
    ensures Get(auth, "type") == Some("bearer") && TokenSet(auth) ==>
      Headers(auth) == map["Content-Type" := "application/json", "Authorization" := "Bearer " + auth["token"]]
    ensures Get(auth, "type") == Some("api_key") && TokenSet(auth) ==>
      var name := if "header_name" in auth then auth["header_name"] else "X-API-Key";
      Headers(auth).Keys == {"Content-Type", name} && Headers(auth)[name] == auth["token"]
    ensures !(Get(auth, "type") in {Some("bearer"), Some("api_key")} && TokenSet(auth)) ==>
      Headers(auth) == map["Content-Type" := "application/json"]
  {
  }

  /** The shipped configuration sends no authentication header. */
  lemma ConfiguredHeaders()
    ensures Headers(AuthConfig) == map["Content-Type" := "application/json"]
  {
    assert Get(AuthConfig, "type") == Some("None");
  }

  // ---------------------------------------------------------------------
  // The response

  /** What the client takes as the patient list from a decoded body. */
  function PatientsValue(data: Json): Json {
    match data
    case JList(_) => data
    case JObj(members) =>
      if HasKey(members, "patients") then Lookup(members, "patients").value
      else if HasKey(members, "data") then Lookup(members, "data").value
      else if Truthy(data) then JList([data]) else JList([])
    case _ => if Truthy(data) then JList([data]) else JList([])
  }

  /** A list is taken as it is; an object's "patients" member wins over its
      "data" member; any other truthy body is a one-element list and a
      falsy one an empty list. */
  lemma PatientsValueSpec(data: Json)
    ensures data.JList? ==> PatientsValue(data) == data
    ensures data.JObj? && HasKey(data.members, "patients") ==>
      Some(PatientsValue(data)) == Lookup(data.members, "patients")
    ensures data.JObj? && !HasKey(data.members, "patients") && HasKey(data.members, "data") ==>
      Some(PatientsValue(data)) == Lookup(data.members, "data")
    ensures !data.JList? && !(data.JObj? && (HasKey(data.members, "patients") || HasKey(data.members, "data"))) ==>
      PatientsValue(data) == (if Truthy(data) then JList([data]) else JList([]))
  {
  }

  /** The records of a list of objects; `None` for any other shape. */
  function Records(v: Json): (r: Option<seq<seq<Member>>>)
    ensures r.Some? ==>
      && v.JList? && |r.value| == |v.items|
      && forall k :: 0 <= k < |v.items| ==> v.items[k] == JObj(r.value[k])
  {
    if v.JList? && forall k :: 0 <= k < |v.items| ==> v.items[k].JObj? then
      Some(seq(|v.items|, k requires 0 <= k < |v.items| => v.items[k].members))
    else None
  }

  /** The outcome of the HTTP request: a response with its status, its body
      as decoded JSON (or the decoding error) and its text; or the message
      of a network error. */
  datatype HttpOutcome =
    | Response(status: int, body: Result<Json, string>, text: string)
    | NetworkError(message: string)

  /** What the client sends and the text it returns; the text is `None` for
      a body whose patient list is not a list of objects. */
  datatype ListReply = ListReply(params: map<string, Json>, headers: map<string, string>, text: Option<string>)

  /** The text `get_patient_list` returns for the request's outcome. */
  function ReplyText(outcome: HttpOutcome): Option<string> {
    match outcome
    case NetworkError(message) => Some("Network error: " + message)
    case Response(status, body, responseText) =>
      if status != 200 then
        Some("Error: API request failed with status " + IntToString(status) + ": " + responseText)
      else match body
        case Failure(e) => Some("Unexpected error: " + e)
        case Success(data) =>
          var patients := PatientsValue(data);
          if !Truthy(patients) then Some(NoPatientsText)
          else match Records(patients)
          case None => None
          case Some(records) =>
            match FormatSpec(records)
            case Success(t) => Some(t)
            case Failure(e) => Some("Unexpected error: " + e)
  }

  /** `get_patient_list`, with the request's outcome as an argument. */
  function GetPatientList(patientName: Option<string>, limit: int, auth: map<string, string>, outcome: HttpOutcome): ListReply {
    ListReply(BuildParams(patientName, limit), Headers(auth), ReplyText(outcome))
  }

  /** Every outcome gives a text except a successful body whose patient
      list is truthy but not a list of objects; a network error, an error
      status, an undecodable body and a falsy patient list each give their
      own text. */
  lemma ReplyTextSpec(outcome: HttpOutcome)
    ensures ReplyText(outcome).None? <==>
      && outcome.Response? && outcome.status == 200 && outcome.body.Success?
      && Truthy(PatientsValue(outcome.body.value)) && Records(PatientsValue(outcome.body.value)).None?
    ensures outcome.NetworkError? ==> ReplyText(outcome) == Some("Network error: " + outcome.message)
    ensures outcome.Response? && outcome.status != 200 ==>
      ReplyText(outcome) == Some("Error: API request failed with status " + IntToString(outcome.status) + ": " + outcome.text)
    ensures outcome.Response? && outcome.status == 200 && outcome.body.Failure? ==>
      ReplyText(outcome) == Some("Unexpected error: " + outcome.body.error)
    ensures outcome.Response? && outcome.status == 200 && outcome.body.Success? && !Truthy(PatientsValue(outcome.body.value)) ==>
      ReplyText(outcome) == Some(NoPatientsText)
  {
  }

  /** A list of patient objects is laid out (an empty one giving the
      no-patients text); a failing layout gives its error. */
  lemma ReplyTextOfRecords(outcome: HttpOutcome)
    requires outcome.Response? && outcome.status == 200 && outcome.body.Success?
    requires Records(PatientsValue(outcome.body.value)).Some?
    ensures var formatted := FormatSpec(Records(PatientsValue(outcome.body.value)).value);
      ReplyText(outcome) == Some(if formatted.Success? then formatted.value else "Unexpected error: " + formatted.error)
  {
    var patients := PatientsValue(outcome.body.value);
    if Records(patients).value != [] {
      assert patients.items != [];
    }
  }

  /** Laying out fails with the error of the first patient whose block
      fails (`BlockResults(records)[k]` is patient `k + 1`'s block). */
  lemma FormatFirstFailure(records: seq<seq<Member>>)
    requires FormatSpec(records).Failure?
    ensures exists k ::
      && 0 <= k < |records|
      && BlockResults(records)[k] == Failure(FormatSpec(records).error)
      && (forall j :: 0 <= j < k ==> BlockResults(records)[j].Success?)
  {
    ConcatFirstFailure(BlockResults(records));
  }
}
