/** The registry client talking to the example registry: the query the
    client builds, as the server reads it, and the server's list reply, as
    the client lays it out. The transport between them is not modelled. */
module EndToEnd {
  import opened Wrappers
  import opened Text
  import opened Json
  import opened ApiClient
  import opened ExampleServer

  /** A query argument as the server receives it: the parameter's value
      written out with `str`, or nothing when it is not sent. */
  function QueryArg(params: map<string, Json>, key: string): (r: Option<string>)
    ensures r.None? <==> key !in params
  {
    if key in params then Some(PyStr(params[key])) else None
  }

  /** What the server answers to the client's query. */
  function ServerReply(patientName: Option<string>, limit: int): PatientsReply {
    var params := BuildParams(patientName, limit);
    GetPatients(QueryArg(params, "name"), QueryArg(params, LimitParam))
  }

  /** The server reads the client's limit as the clamped value, so it
      returns at most 100 patients, all of them matching a non-empty name,
      and exactly `min(clamped limit, number of matches)` of them. */
  lemma ServerAnswersClientQuery(patientName: Option<string>, limit: int)
    ensures var reply := ServerReply(patientName, limit);
      && reply.limitFilter == Clamp(limit)
      && (patientName.Some? && patientName.value != "" ==>
            reply.nameFilter == patientName && forall p :: p in reply.patients ==> NameMatches(patientName.value, p))
      && (patientName.None? || patientName.value == "" ==> reply.nameFilter.None?)
      && |reply.patients| == (if Clamp(limit) < |Filtered(reply.nameFilter)| then Clamp(limit) else |Filtered(reply.nameFilter)|)
      && (Filtered(reply.nameFilter) != [] ==> reply.patients != [])
      && |reply.patients| <= 100
  {
    var params := BuildParams(patientName, limit);
    BuildParamsSpec(patientName, limit);
    ParseLimitOfIntToString(Clamp(limit));
    assert QueryArg(params, LimitParam) == Some(IntToString(Clamp(limit)));
    GetPatientsSpec(QueryArg(params, "name"), QueryArg(params, LimitParam));
  }

  /** The keys of a registry patient's JSON object. */
  const RegistryKeys: set<string> := {"admission_date", "age", "department", "id", "name", "status"}

  lemma AbsentKey(p: Patient, key: string)
    requires key !in RegistryKeys
    ensures !Present(PatientJson(p).members, key)
  {
    var record := PatientJson(p).members;
    assert forall i :: 0 <= i < |record| ==> record[i].key in RegistryKeys;
  }

  /** A field none of whose names is a registry key shows its placeholder. */
  lemma AbsentField(p: Patient, field: string)
    requires forall i :: 0 <= i < |Aliases(field)| ==> Aliases(field)[i] !in RegistryKeys
    ensures GetFieldValue(PatientJson(p).members, field) == JStr(Missing(field))
  {
    forall i | 0 <= i < |Aliases(field)|
      ensures !Present(PatientJson(p).members, Aliases(field)[i])
    {
      AbsentKey(p, Aliases(field)[i]);
    }
    GetFieldValueSpec(PatientJson(p).members, field);
  }

  lemma MedicationAliases()
    ensures forall i :: 0 <= i < |Aliases("medications")| ==> Aliases("medications")[i] !in RegistryKeys
  {
    assert Aliases("medications") == ["medications", "Medications", "meds", "drugs", "prescriptions"];
  }

  lemma AllergyAliases()
    ensures forall i :: 0 <= i < |Aliases("allergies")| ==> Aliases("allergies")[i] !in RegistryKeys
  {
    assert Aliases("allergies") == ["allergies", "Allergies", "allergy_list", "medical_allergies"];
  }

  /** A field whose first name holds a non-null value shows that value. */
  lemma FirstAliasPresent(record: seq<Member>, field: string, v: Json)
    requires Aliases(field) != [] && Lookup(record, Aliases(field)[0]) == Some(v) && v != JNull
    ensures GetFieldValue(record, field) == v
  {
  }

  /** The department is found under its own key. */
  lemma DepartmentField(p: Patient)
    ensures GetFieldValue(PatientJson(p).members, "department") == JStr(p.department)
  {
    var record := PatientJson(p).members;
    assert Aliases("department")[0] == "department";
    assert forall i :: 0 <= i < |record| && i != 2 ==> record[i].key != "department";
    LookupUniqueKey(record, 2);
    FirstAliasPresent(record, "department", JStr(p.department));
  }

  /** The status is found under its own key. */
  lemma StatusField(p: Patient)
    ensures GetFieldValue(PatientJson(p).members, "status") == JStr(p.status)
  {
    var record := PatientJson(p).members;
    assert Aliases("status")[0] == "status";
    assert forall i :: 0 <= i < |record| && i != 5 ==> record[i].key != "status";
    LookupUniqueKey(record, 5);
    FirstAliasPresent(record, "status", JStr(p.status));
  }

  /** The fields the client looks up in a registry patient: the sorted
      JSON keys hold the standard names, and no medication or allergy key
      is present. */
  lemma RegistryFields(p: Patient)
    ensures var record := PatientJson(p).members;
      && GetFieldValue(record, "department") == JStr(p.department)
      && GetFieldValue(record, "status") == JStr(p.status)
      && GetFieldValue(record, "medications") == JStr(NotAvailable)
      && GetFieldValue(record, "allergies") == JStr(NotAvailable)
  {
    DepartmentField(p);
    StatusField(p);
    MedicationAliases();
    AbsentField(p, "medications");
    AllergyAliases();
    AbsentField(p, "allergies");
  }

  /** Every registry patient's block is written. */
  lemma RegistryBlockWritten(number: nat, p: Patient)
    ensures PatientBlock(number, PatientJson(p).members).Success?
  {
    RegistryFields(p);
    PatientBlockSpec(number, PatientJson(p).members);
  }

  /** The records the client finds in a list reply. */
  function ReplyRecords(reply: PatientsReply): (r: seq<seq<Member>>)
    ensures |r| == |reply.patients|
  {
    seq(|reply.patients|, k requires 0 <= k < |reply.patients| => PatientJson(reply.patients[k]).members)
  }

  /** Laying out registry patients never fails. */
  lemma RegistryListWritten(reply: PatientsReply)
    ensures FormatSpec(ReplyRecords(reply)).Success?
  {
    var records := ReplyRecords(reply);
    var blocks := BlockResults(records);
    forall k | 0 <= k < |blocks|
      ensures blocks[k].Success?
    {
      BlockResultsAt(records, k);
      RegistryBlockWritten(k + 1, reply.patients[k]);
    }
    ConcatSuccessIff(blocks);
  }

  /** The client finds the server's "patients" member and reads one record
      per returned patient, in order. */
  lemma ReplyBodyRecords(reply: PatientsReply)
    ensures Records(PatientsValue(PatientsBody(reply))) == Some(ReplyRecords(reply))
  {
    var members := PatientsBody(reply).members;
    assert forall j :: 0 <= j < |members| && j != 1 ==> members[j].key != members[1].key;
    LookupUniqueKey(members, 1);
    assert HasKey(members, "patients");
    var list := PatientsValue(PatientsBody(reply));
    assert list == members[1].value;
    assert list.JList? && |list.items| == |reply.patients|;
    assert forall k :: 0 <= k < |list.items| ==> list.items[k] == PatientJson(reply.patients[k]);
    assert Records(list).Some?;
    assert Records(list).value == ReplyRecords(reply);
  }

  /** A successful list reply is laid out in full, whatever patients it
      holds; the text is the no-patients text exactly when it holds none. */
  lemma ClientListsReply(reply: PatientsReply, bodyText: string)
    ensures var text := ReplyText(Response(200, Success(PatientsBody(reply)), bodyText));
      && FormatSpec(ReplyRecords(reply)).Success?
      && text == Some(FormatSpec(ReplyRecords(reply)).value)
      && (text == Some(NoPatientsText) <==> reply.patients == [])
  {
    ReplyBodyRecords(reply);
    RegistryListWritten(reply);
    ReplyTextOfRecords(Response(200, Success(PatientsBody(reply)), bodyText));
    NoPatientsTextIff(ReplyRecords(reply));
  }

  /** The client takes the server's "patients" member as the list and lays
      out exactly the returned patients, in order; the text is the
      no-patients text exactly when the server returned none. */
  lemma ClientListsServerReply(patientName: Option<string>, limit: int, auth: map<string, string>, bodyText: string)
    ensures var reply := ServerReply(patientName, limit);
      var text := GetPatientList(patientName, limit, auth, Response(200, Success(PatientsBody(reply)), bodyText)).text;
      && FormatSpec(ReplyRecords(reply)).Success?
      && text == Some(FormatSpec(ReplyRecords(reply)).value)
      && (text == Some(NoPatientsText) <==> reply.patients == [])
  {
    ClientListsReply(ServerReply(patientName, limit), bodyText);
  }
}
