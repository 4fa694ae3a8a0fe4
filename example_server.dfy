/** The example patient registry: twelve fixed patients, a list endpoint
    that filters them by a case-insensitive piece of the name and keeps a
    prefix of at most `limit`, and a lookup by id. Routing and JSON
    serialisation are not modelled; a reply is its status and its body as
    a JSON value. */
module ExampleServer {
  import opened Wrappers
  import opened Text
  import opened Json

  datatype Patient = Patient(id: string, name: string, age: int, department: string, status: string, admissionDate: string)

  /** The registry's patients, in order. */
  const SamplePatients: seq<Patient> := [
    Patient("P001", "John Smith", 45, "cardiology", "active", "2024-01-15"),
    Patient("P002", "Mary Johnson", 32, "neurology", "admitted", "2024-01-20"),
    Patient("P003", "Robert Brown", 67, "orthopedics", "discharged", "2024-01-10"),
    Patient("P004", "Sarah Davis", 28, "general", "outpatient", "2024-01-22"),
    Patient("P005", "Michael Wilson", 55, "emergency", "active", "2024-01-23"),
    Patient("P006", "Emily Taylor", 41, "cardiology", "admitted", "2024-01-21"),
    Patient("P007", "David Anderson", 39, "neurology", "active", "2024-01-19"),
    Patient("P008", "Lisa Martinez", 52, "orthopedics", "outpatient", "2024-01-18"),
    Patient("P009", "James Garcia", 33, "general", "discharged", "2024-01-12"),
    Patient("P010", "Jennifer Lee", 47, "emergency", "admitted", "2024-01-24"),
    Patient("P011", "Christopher White", 29, "cardiology", "outpatient", "2024-01-25"),
    Patient("P012", "Amanda Clark", 38, "neurology", "discharged", "2024-01-16")
  ]

  /** A patient as a JSON object, keys in the sorted order the server's
      serialiser writes them. */
  function PatientJson(p: Patient): Json {
    JObj([
      Member("admission_date", JStr(p.admissionDate)),
      Member("age", JInt(p.age)),
      Member("department", JStr(p.department)),
      Member("id", JStr(p.id)),
      Member("name", JStr(p.name)),
      Member("status", JStr(p.status))])
  }

  /** A reply: HTTP status and JSON body. */
  datatype Reply = Reply(status: int, body: Json)

  // ---------------------------------------------------------------------
  // The limit argument

  const DefaultLimit: int := 10

  /** The query argument `limit` read as an integer: a run of digits,
      optionally after a minus sign; a missing or unreadable argument
      gives the default. */
  function ParseLimit(arg: Option<string>): (r: int)
    ensures arg.None? ==> r == DefaultLimit
    ensures arg.Some? && arg.value != [] && AllDigits(arg.value) ==> r == DigitsValue(arg.value)
    ensures arg.Some? && |arg.value| > 1 && arg.value[0] == '-' && AllDigits(arg.value[1..]) ==>
      r == -(DigitsValue(arg.value[1..]) as int)
    ensures (arg.Some? && !(arg.value != [] && AllDigits(arg.value))
             && !(|arg.value| > 1 && arg.value[0] == '-' && AllDigits(arg.value[1..]))) ==> r == DefaultLimit
  {
    match arg
    case None => DefaultLimit
    case Some(s) =>
      if s != [] && AllDigits(s) then DigitsValue(s)
      else if |s| > 1 && s[0] == '-' && AllDigits(s[1..]) then -(DigitsValue(s[1..]) as int)
      else DefaultLimit
  }

  /** Every integer the client sends, written in decimal, is read back as
      itself. */
  lemma ParseLimitOfIntToString(n: int)
    ensures ParseLimit(Some(IntToString(n))) == n
  {
    if n < 0 {
      var digits := NatToString(-n);
      assert IntToString(n) == "-" + digits;
      assert ("-" + digits)[1..] == digits;
      assert !AllDigits("-" + digits) by {
        assert !IsDigit(("-" + digits)[0]);
      }
      DigitsValueOfNatToString(-n);
    } else {
      DigitsValueOfNatToString(n);
    }
  }

  // ---------------------------------------------------------------------
  // Filtering and limiting

  /** `name.lower() in p['name'].lower()`. */
  predicate NameMatches(filter: string, p: Patient) {
    Contains(Lower(p.name), Lower(filter))
  }

  /** The patients whose name contains `filter`, ignoring case, in order. */
  function FilterByName(patients: seq<Patient>, filter: string): (r: seq<Patient>)
    ensures |r| <= |patients|
  {
    if patients == [] then []
    else (if NameMatches(filter, patients[0]) then [patients[0]] else []) + FilterByName(patients[1..], filter)
  }

  /** Filtering keeps exactly the matching patients, in their order: every
      kept patient matches, every matching patient is kept, and the result
      is a subsequence of the input. */
  lemma {:induction false} FilterByNameSpec(patients: seq<Patient>, filter: string)
    ensures forall p :: p in FilterByName(patients, filter) ==> p in patients && NameMatches(filter, p)
    ensures forall p :: p in patients && NameMatches(filter, p) ==> p in FilterByName(patients, filter)
    ensures IsSubsequence(FilterByName(patients, filter), patients)
  {
    if patients != [] {
      var rest := FilterByName(patients[1..], filter);
      FilterByNameSpec(patients[1..], filter);
      if NameMatches(filter, patients[0]) {
        assert FilterByName(patients, filter) == [patients[0]] + rest;
        assert ([patients[0]] + rest)[1..] == rest;
      } else {
        assert FilterByName(patients, filter) == rest;
        if rest != [] {
          SubsequenceOfTail(rest, patients);
        }
      }
      forall p | p in patients && NameMatches(filter, p)
        ensures p in FilterByName(patients, filter)
      {
        if p != patients[0] {
          var k :| 0 <= k < |patients| && patients[k] == p;
          assert patients[1..][k - 1] == p;
        }
      }
    }
  }

  /** The empty filter is in every name, so it keeps every patient. */
  lemma {:induction false} EmptyFilterKeepsAll(patients: seq<Patient>)
    ensures FilterByName(patients, "") == patients
  {
    if patients != [] {
      assert IsPrefix(Lower(""), Lower(patients[0].name));
      EmptyFilterKeepsAll(patients[1..]);
    }
  }

  /** Only the letters of the filter, not their case, decide the match: a
      filter and its lower-cased form select the same patients. */
  lemma {:induction false} FilterIgnoresCase(patients: seq<Patient>, filter: string)
    ensures FilterByName(patients, Lower(filter)) == FilterByName(patients, filter)
  {
    if patients != [] {
      LowerTwice(filter);
      FilterIgnoresCase(patients[1..], filter);
    }
  }

  /** `patients[:limit]` when `limit > 0`; no truncation otherwise. */
  function Truncate(patients: seq<Patient>, limit: int): (r: seq<Patient>)
    ensures limit <= 0 ==> r == patients
    ensures limit > 0 ==> |r| == (if limit < |patients| then limit else |patients|) && r == patients[..|r|]
  {
    if limit > 0 && limit < |patients| then patients[..limit] else patients
  }

  /** The patients left after the name filter; a missing or empty name
      filters nothing. */
  function Filtered(name: Option<string>): seq<Patient> {
    if name.Some? && name.value != "" then FilterByName(SamplePatients, name.value) else SamplePatients
  }

  /** What the list endpoint returns: the patients, their number and the
      filters it applied. */
  datatype PatientsReply = PatientsReply(patients: seq<Patient>, total: int, nameFilter: Option<string>, limitFilter: int)

  /** `get_patients`, for the query arguments `name` and `limit`. */
  function GetPatients(name: Option<string>, limitArg: Option<string>): PatientsReply {
    ListReply(Filtered(name), name, ParseLimit(limitArg))
  }

  /** The reply for the patients left after the name filter: at most
      `limit` of them when `limit > 0`. */
  function ListReply(filtered: seq<Patient>, name: Option<string>, limit: int): PatientsReply {
    var patients := Truncate(filtered, limit);
    PatientsReply(patients, |patients|, name, limit)
  }

  /** The list reply as the JSON body the client decodes, keys sorted. */
  function PatientsBody(reply: PatientsReply): Json {
    JObj([
      Member("filters", JObj([
        Member("limit", JInt(reply.limitFilter)),
        Member("name", if reply.nameFilter.Some? then JStr(reply.nameFilter.value) else JNull)])),
      Member("patients", JList(seq(|reply.patients|, k requires 0 <= k < |reply.patients| => PatientJson(reply.patients[k])))),
      Member("total", JInt(reply.total))])
  }

  /** The list endpoint returns the first `min(limit, n)` of the `n`
      patients the name filter keeps (all of them for `limit <= 0`), every
      one a registry patient matching a non-empty filter; `total` counts
      what is returned and the filters are echoed. */
  lemma GetPatientsSpec(name: Option<string>, limitArg: Option<string>)
    ensures var reply, limit := GetPatients(name, limitArg), ParseLimit(limitArg);
      && reply.total == |reply.patients|
      && reply.nameFilter == name && reply.limitFilter == limit
      && (limitArg.None? ==> limit == DefaultLimit)
      && reply.patients == Filtered(name)[..|reply.patients|]
      && (limit <= 0 ==> reply.patients == Filtered(name))
      && (limit > 0 ==> |reply.patients| == if limit < |Filtered(name)| then limit else |Filtered(name)|)
      && (forall p :: p in reply.patients ==> p in SamplePatients)
      && (name.Some? && name.value != "" ==> forall p :: p in reply.patients ==> NameMatches(name.value, p))
  {
    ListReplySpec(Filtered(name), name, ParseLimit(limitArg));
    FilteredMembers(name);
  }

  /** The reply holds a prefix of the filtered patients, `min(limit, n)`
      long for `limit > 0` and all of them otherwise, and counts them. */
  lemma ListReplySpec(filtered: seq<Patient>, name: Option<string>, limit: int)
    ensures var reply := ListReply(filtered, name, limit);
      && reply.total == |reply.patients|
      && reply.nameFilter == name && reply.limitFilter == limit
      && reply.patients == filtered[..|reply.patients|]
      && (limit <= 0 ==> reply.patients == filtered)
      && (limit > 0 ==> |reply.patients| == if limit < |filtered| then limit else |filtered|)
      && (forall p :: p in reply.patients ==> p in filtered)
  {
    TruncateKeepsMembers(filtered, limit);
  }

  /** The name filter keeps registry patients only, each matching a
      non-empty filter. */
  lemma FilteredMembers(name: Option<string>)
    ensures forall p :: p in Filtered(name) ==> p in SamplePatients
    ensures name.Some? && name.value != "" ==> forall p :: p in Filtered(name) ==> NameMatches(name.value, p)
  {
    if name.Some? && name.value != "" {
      FilterByNameSpec(SamplePatients, name.value);
    }
  }

  /** The name filter keeps registry patients in registry order; without
      a filter it keeps them all. */
  lemma FilteredSpec(name: Option<string>)
    ensures IsSubsequence(Filtered(name), SamplePatients)
    ensures name.None? || name.value == "" ==> Filtered(name) == SamplePatients
  {
    if name.Some? && name.value != "" {
      FilterByNameSpec(SamplePatients, name.value);
    } else {
      SubsequenceOfItself(SamplePatients);
    }
  }

  /** Truncation keeps only patients it was given. */
  lemma TruncateKeepsMembers(patients: seq<Patient>, limit: int)
    ensures forall p :: p in Truncate(patients, limit) ==> p in patients
  {
    var r := Truncate(patients, limit);
    forall p | p in r
      ensures p in patients
    {
      var k :| 0 <= k < |r| && r[k] == p;
      assert patients[k] == p;
    }
  }

  // ---------------------------------------------------------------------
  // Lookup by id

  const NotFoundError: string := "Patient not found"

  /** The position of the first patient with the id, if any. */
  function FindById(patients: seq<Patient>, id: string): (r: Option<nat>)
    ensures r.Some? ==> r.value < |patients| && patients[r.value].id == id
    ensures r.Some? ==> forall j :: 0 <= j < r.value ==> patients[j].id != id
    ensures r.None? ==> forall j :: 0 <= j < |patients| ==> patients[j].id != id
  {
    if patients == [] then None
    else if patients[0].id == id then Some(0)
    else match FindById(patients[1..], id)
      case None => None
      case Some(i) => Some(i + 1)
  }

  /** `get_patient`: the patient as JSON with status 200, or 404 with an
      error object. */
  function GetPatient(id: string): Reply {
    match FindById(SamplePatients, id)
    case Some(i) => Reply(200, PatientJson(SamplePatients[i]))
    case None => Reply(404, JObj([Member("error", JStr(NotFoundError))]))
  }

  /** The lookup answers 200 with the first registry patient that has the
      id, and 404 with "Patient not found" exactly when no patient has it. */
  lemma GetPatientSpec(id: string)
    ensures GetPatient(id).status == 200 <==> exists k :: 0 <= k < |SamplePatients| && SamplePatients[k].id == id
    ensures GetPatient(id).status == 200 ==>
      exists k :: 0 <= k < |SamplePatients| && SamplePatients[k].id == id
        && (forall j :: 0 <= j < k ==> SamplePatients[j].id != id)
        && GetPatient(id).body == PatientJson(SamplePatients[k])
    ensures GetPatient(id).status != 200 ==>
      GetPatient(id) == Reply(404, JObj([Member("error", JStr(NotFoundError))]))
  {
    match FindById(SamplePatients, id)
    case Some(i) =>
    case None =>
  }
}
