/** The documented quality failure modes tool: a normalised lookup of a
    process type in a fixed FMEA table, returned with a count of its modes. */
module QualityFailureModeDatabase {
  import opened Text
  import opened JsonData

  const DefaultProcessType := "pvc_injection_moulding"

  /** A dict of string values. */
  function StrMap(m: map<string, string>): Json {
    JObj(map k | k in m :: JStr(m[k]))
  }

  /** One failure mode of the FMEA table. */
  function Mode(id: string, failure: string, cause: string, detection: string,
                risks: map<string, string>, mitigation: string): (m: Json)
    ensures m.JObj? && "id" in m.fields && m.fields["id"] == JStr(id)
  {
    JObj(map[
      "id" := JStr(id),
      "failure_mode" := JStr(failure),
      "cause" := JStr(cause),
      "detection_method" := JStr(detection),
      "risk_parameters" := StrMap(risks),
      "mitigation" := JStr(mitigation)
    ])
  }

  const Fm001: Json :=
    Mode("FM-001", "Warping / Distortion",
      "Uneven cooling or excessive mould temperature differential",
      "Visual inspection and dimensional gauging",
      map["barrel_temp_risk" := "LOW if within 180-200°C range",
          "cooling_time_risk" := "MEDIUM if below 15s"],
      "Maintain uniform mould temperature; ensure adequate cooling time")

  const Fm002: Json :=
    Mode("FM-002", "Sink Marks",
      "Insufficient packing pressure or premature gate freeze-off",
      "Visual inspection under angled lighting",
      map["injection_pressure_risk" := "LOW if within 80-120 bar",
          "barrel_temp_risk" := "LOW if within 180-200°C range"],
      "Optimise packing pressure and hold time")

  const Fm003: Json :=
    Mode("FM-003", "Short Shots (Incomplete Fill)",
      "Insufficient injection pressure or material flow restriction",
      "Visual inspection — incomplete part geometry",
      map["injection_pressure_risk" := "LOW if within 80-120 bar",
          "barrel_temp_risk" := "LOW if within 180-200°C range (higher temp improves flow)"],
      "Increase injection pressure or barrel temperature within approved range")

  const Fm004: Json :=
    Mode("FM-004", "Flash (Excess Material)",
      "Excessive injection pressure or worn mould tooling",
      "Visual inspection — excess material at parting lines",
      map["injection_pressure_risk" := "LOW if within 80-120 bar",
          "clamp_force_risk" := "LOW if mould tooling is within specification"],
      "Verify clamp tonnage; inspect mould tooling condition")

  const Fm005: Json :=
    Mode("FM-005", "Discolouration / Burn Marks",
      "Excessive barrel temperature or prolonged residence time",
      "Visual inspection — colour variation or brown/black marks",
      map["barrel_temp_risk" := "LOW if within 180-200°C range",
          "residence_time_risk" := "LOW under standard cycle times"],
      "Reduce barrel temperature or cycle time; check for dead spots in barrel")

  const Fm006: Json :=
    Mode("FM-006", "Brittleness / Reduced Impact Strength",
      "Material degradation from excessive processing temperature or moisture",
      "Drop test and Charpy impact test on sample parts",
      map["barrel_temp_risk" := "LOW if within 180-200°C range",
          "material_drying_risk" := "LOW if material dried per supplier specification"],
      "Ensure material is properly dried; keep barrel temp within range")

  const PvcModes: seq<Json> := [Fm001, Fm002, Fm003, Fm004, Fm005, Fm006]

  /** The FMEA records, keyed by normalised process type. */
  const FailureModes: map<string, Json> := map[
    "pvc_injection_moulding" := JObj(map[
      "process_type" := JStr("PVC Injection Moulding"),
      "fmea_reference" := JStr("FMEA-PVC-IM-2023-R4"),
      "failure_modes" := JArr(PvcModes),
      "scope_note" := JStr(
        "This FMEA covers production process-related failure modes only. "
        + "Chemical migration and leaching are assessed by material supplier "
        + "certification and MS-4401 v3.2 compliance, not by production "
        + "process FMEA.")
    ])
  ]

  const Note :=
    "Evaluate production quality risk ONLY against the failure modes "
    + "documented above. Failure modes outside this database are assessed "
    + "by other governance processes."

  predicate WellFormedRecord(record: Json) {
    && record.JObj?
    && {"process_type", "fmea_reference", "failure_modes", "scope_note"} <= record.fields.Keys
    && record.fields["failure_modes"].JArr?
  }

  lemma FailureModesShape(key: string)
    requires key in FailureModes
    ensures WellFormedRecord(FailureModes[key])
  {
    assert key == "pvc_injection_moulding";
  }

  function NotFoundMessage(key: string): string {
    "Error: Process type '" + key + "' not found in failure mode database."
  }

  /** The normalised `process_type` argument the table is searched for. */
  function LookupKey(args: Args): (key: string)
    ensures key == ReplaceChar(Lower(Arg(args, "process_type", DefaultProcessType)), ' ', '_')
  {
    NormalisedArg(args, "process_type", DefaultProcessType)
  }

  /** The dict the tool returns for a record: its identification, its
      failure modes and scope note unchanged, their count, and the note. */
  function View(record: Json): (r: Json)
    requires WellFormedRecord(record)
    ensures r.JObj?
    ensures r.fields.Keys == {"process_type", "fmea_reference", "total_failure_modes",
                              "failure_modes", "scope_note", "note"}
    ensures r.fields["failure_modes"] == record.fields["failure_modes"]
    ensures r.fields["total_failure_modes"] == JInt(|record.fields["failure_modes"].items|)
    ensures r.fields["scope_note"] == record.fields["scope_note"]
    ensures r.fields["process_type"] == record.fields["process_type"]
    ensures r.fields["fmea_reference"] == record.fields["fmea_reference"]
    ensures r.fields["note"] == JStr(Note)
  {
    var f := record.fields;
    JObj(map[
      "process_type" := f["process_type"],
      "fmea_reference" := f["fmea_reference"],
      "total_failure_modes" := JInt(|f["failure_modes"].items|),
      "failure_modes" := f["failure_modes"],
      "scope_note" := f["scope_note"],
      "note" := JStr(Note)
    ])
  }

  /** `QualityFailureModeDatabase.invoke`: an unknown key is an error naming
      the normalised key; a known one gives the record's view, whose count
      is the length of the list it returns. */
  function Invoke(args: Args): (r: Json)
    ensures LookupKey(args) !in FailureModes ==> r == JStr(NotFoundMessage(LookupKey(args)))
    ensures var key := LookupKey(args);
      key in FailureModes ==>
        var record := FailureModes[key].fields;
        && r.JObj?
        && r.fields.Keys == {"process_type", "fmea_reference", "total_failure_modes",
                             "failure_modes", "scope_note", "note"}
        && "failure_modes" in record && record["failure_modes"].JArr?
        && r.fields["failure_modes"] == record["failure_modes"]
        && r.fields["total_failure_modes"] == JInt(|record["failure_modes"].items|)
        && r.fields["scope_note"] == record["scope_note"]
        && r.fields["note"] == JStr(Note)
  {
    var key := LookupKey(args);
    if key !in FailureModes then JStr(NotFoundMessage(key))
    else
      FailureModesShape(key);
      View(FailureModes[key])
  }

  /** The table holds one process. */
  lemma FailureModesKeys()
    ensures FailureModes.Keys == {"pvc_injection_moulding"}
    ensures FailureModes["pvc_injection_moulding"].fields["failure_modes"] == JArr(PvcModes)
  {
  }

  /** Its six failure modes are FM-001 to FM-006, in order. */
  lemma PvcModeIds()
    ensures |PvcModes| == 6
    ensures Ids(PvcModes) == [JStr("FM-001"), JStr("FM-002"), JStr("FM-003"),
                              JStr("FM-004"), JStr("FM-005"), JStr("FM-006")]
  {
    var ids := Ids(PvcModes);
    assert PvcModes[0] == Fm001 && PvcModes[1] == Fm002 && PvcModes[2] == Fm003;
    assert PvcModes[3] == Fm004 && PvcModes[4] == Fm005 && PvcModes[5] == Fm006;
    assert ids[0] == JStr("FM-001");
    assert ids[1] == JStr("FM-002");
    assert ids[2] == JStr("FM-003");
    assert ids[3] == JStr("FM-004");
    assert ids[4] == JStr("FM-005");
    assert ids[5] == JStr("FM-006");
  }

  /** A missing process type selects PVC injection moulding and reports its six modes. */
  lemma DefaultProcessTypeSucceeds()
    ensures Invoke(map[]).JObj?
    ensures Invoke(map[]).fields["total_failure_modes"] == JInt(6)
    ensures Invoke(map[]).fields["failure_modes"] == JArr(PvcModes)
  {
    assert NormaliseKey("pvc_injection_moulding") == "pvc_injection_moulding";
    assert LookupKey(map[]) == "pvc_injection_moulding";
  }

  /** A spaced, capitalised spelling finds the same record. */
  lemma DisplayNameFindsRecord()
    ensures Invoke(map["process_type" := "PVC Injection Moulding"]) == Invoke(map[])
  {
    assert NormaliseKey("PVC Injection Moulding") == "pvc_injection_moulding";
    assert NormaliseKey("pvc_injection_moulding") == "pvc_injection_moulding";
    assert LookupKey(map[]) == LookupKey(map["process_type" := "PVC Injection Moulding"]);
  }
}
