/** The approved production parameter ranges tool: a normalised lookup of a
    process type in a fixed table. */
module ProductionParameterDatabase {
  import opened Text
  import opened JsonData

  const DefaultProcessType := "injection_moulding"

  /** One parameter range of the table. */
  function Range(min: int, max: int, unit: string, description: string): Json {
    JObj(map["min" := JInt(min), "max" := JInt(max), "unit" := JStr(unit), "description" := JStr(description)])
  }

  const InjectionMouldingParameters: map<string, Json> := map[
    "barrel_temperature_celsius" :=
      Range(180, 200, "°C", "Barrel temperature range for PVC injection moulding"),
    "injection_pressure_bar" := Range(80, 120, "bar", "Injection pressure range"),
    "cooling_time_seconds" := Range(15, 25, "seconds", "Cooling time per cycle"),
    "mould_temperature_celsius" := Range(30, 50, "°C", "Mould temperature range"),
    "injection_speed_mm_per_s" := Range(40, 80, "mm/s", "Injection speed range")
  ]

  /** The approved parameter ranges, keyed by normalised process type. */
  const ParameterRanges: map<string, Json> := map[
    "injection_moulding" := JObj(map[
      "process_type" := JStr("Injection Moulding"),
      "material_category" := JStr("PVC compound"),
      "parameters" := JObj(InjectionMouldingParameters),
      "throughput_advisory" := JStr(
        "At 195-200°C barrel temperature, throughput increases approximately "
        + "20% due to improved melt flow. Recommended for rush orders requiring "
        + "maximum production efficiency."),
      "validation_reference" := JStr("PVR-2023-017"),
      "validation_status" := JStr("APPROVED — All parameters validated within specified ranges")
    ])
  ]

  /** The record fields the output copies, each under its own name. */
  const CopiedFields: set<string> := {
    "process_type", "material_category", "throughput_advisory",
    "validation_reference", "validation_status"
  }

  const Note :=
    "All parameter ranges have been validated and approved under "
    + "reference PVR-2023-017. Operators must ensure settings remain "
    + "within these ranges during production."

  predicate WellFormedRecord(record: Json) {
    record.JObj? && CopiedFields <= record.fields.Keys && "parameters" in record.fields
  }

  lemma ParameterRangesShape(key: string)
    requires key in ParameterRanges
    ensures WellFormedRecord(ParameterRanges[key])
  {
    assert key == "injection_moulding";
  }

  function NotFoundMessage(key: string): string {
    "Error: Process type '" + key + "' not found in approved parameter database."
  }

  /** The normalised `process_type` argument the table is searched for. */
  function LookupKey(args: Args): (key: string)
    ensures key == ReplaceChar(Lower(Arg(args, "process_type", DefaultProcessType)), ' ', '_')
  {
    NormalisedArg(args, "process_type", DefaultProcessType)
  }

  /** `ProductionParameterDatabase.invoke`. */
  function Invoke(args: Args): (r: Json)
    ensures LookupKey(args) !in ParameterRanges ==> r == JStr(NotFoundMessage(LookupKey(args)))
    ensures var key := LookupKey(args);
      key in ParameterRanges ==>
        var record := ParameterRanges[key].fields;
        && r.JObj?
        && r.fields.Keys == CopiedFields + {"approved_parameters", "note"}
        && r.fields["approved_parameters"] == record["parameters"]
        && (forall k :: k in CopiedFields ==> r.fields[k] == record[k])
        && r.fields["note"] == JStr(Note)
  {
    var key := LookupKey(args);
    if key !in ParameterRanges then JStr(NotFoundMessage(key))
    else
      ParameterRangesShape(key);
      View(ParameterRanges[key])
  }

  /** The dict the tool returns for a record: the copied fields, the
      record's `parameters` as `approved_parameters`, and the note. */
  function View(record: Json): (r: Json)
    requires WellFormedRecord(record)
    ensures r.JObj?
    ensures r.fields.Keys == CopiedFields + {"approved_parameters", "note"}
    ensures r.fields["approved_parameters"] == record.fields["parameters"]
    ensures forall k :: k in CopiedFields ==> r.fields[k] == record.fields[k]
    ensures r.fields["note"] == JStr(Note)
  {
    var copied := map k | k in CopiedFields :: record.fields[k];
    JObj(copied["approved_parameters" := record.fields["parameters"]]["note" := JStr(Note)])
  }

  /** A range entry whose bounds are integers with the lower one below the upper one. */
  predicate IsOrderedRange(p: Json) {
    p.JObj? && "min" in p.fields && "max" in p.fields
    && p.fields["min"].JInt? && p.fields["max"].JInt?
    && p.fields["min"].i < p.fields["max"].i
  }

  /** Every parameter of every process in the table has `min < max`. */
  lemma ParameterRangesOrdered(key: string, name: string)
    requires key in ParameterRanges
    requires ParameterRanges[key].JObj? && "parameters" in ParameterRanges[key].fields
    requires ParameterRanges[key].fields["parameters"].JObj?
    requires name in ParameterRanges[key].fields["parameters"].fields
    ensures IsOrderedRange(ParameterRanges[key].fields["parameters"].fields[name])
  {
    assert key == "injection_moulding";
    assert name in InjectionMouldingParameters;
  }

  /** A missing `process_type` selects injection moulding and succeeds. */
  lemma DefaultProcessTypeSucceeds()
    ensures Invoke(map[]).JObj?
    ensures Invoke(map[]).fields["approved_parameters"] == JObj(InjectionMouldingParameters)
  {
    assert NormaliseKey("injection_moulding") == "injection_moulding";
    assert LookupKey(map[]) == "injection_moulding";
  }

  /** The display name "Injection Moulding" normalises to the table key,
      so it finds the same record as the default. */
  lemma DisplayNameFindsRecord()
    ensures LookupKey(map["process_type" := "Injection Moulding"]) == "injection_moulding"
    ensures Invoke(map["process_type" := "Injection Moulding"]) == Invoke(map[])
  {
    assert NormaliseKey("Injection Moulding") == "injection_moulding";
    assert NormaliseKey("injection_moulding") == "injection_moulding";
    assert LookupKey(map[]) == LookupKey(map["process_type" := "Injection Moulding"]);
  }

  /** An unknown key is reported with its normalised spelling: "Blow Moulding"
      is quoted as "blow_moulding". */
  lemma UnknownKeyIsQuotedNormalised()
    ensures Invoke(map["process_type" := "Blow Moulding"])
      == JStr(NotFoundMessage("blow_moulding"))
  {
    assert NormaliseKey("Blow Moulding") == "blow_moulding";
    assert LookupKey(map["process_type" := "Blow Moulding"]) == "blow_moulding";
    assert "blow_moulding" !in ParameterRanges;
  }

  /** Looking up an already normalised key is the same as looking up the
      key it came from. */
  lemma LookupKeyStable(args: Args)
    ensures Invoke(map["process_type" := LookupKey(args)]) == Invoke(args)
  {
    NormaliseKeyIdempotent(Arg(args, "process_type", DefaultProcessType));
  }
}
