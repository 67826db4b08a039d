/** The compliance checklist tool: a normalised lookup of a product category
    in a fixed table of checklists, returned with a count of its items. */
module ComplianceChecklistDatabase {
  import opened Text
  import opened JsonData

  const DefaultProductCategory := "childrens_toy_production"

  /** One item of a checklist. */
  function Item(id: string, item: string, description: string,
                verification: string, criteria: string): (m: Json)
    ensures m.JObj? && "id" in m.fields && m.fields["id"] == JStr(id)
  {
    JObj(map[
      "id" := JStr(id),
      "item" := JStr(item),
      "description" := JStr(description),
      "verification_method" := JStr(verification),
      "pass_criteria" := JStr(criteria)
    ])
  }

  const Cc001: Json :=
    Item("CC-001", "Approved Vendor List (AVL) Verification",
      "Confirm selected supplier is on the current Approved Vendor List",
      "Cross-reference supplier ID against AVL database",
      "Supplier ID exists in AVL with status APPROVED")

  const Cc002: Json :=
    Item("CC-002", "MS-4401 v3.2 Material Compliance",
      "Verify material passes all 5 parameters in MS-4401 v3.2 testing standard",
      "Review MS-4401 v3.2 test results from supplier database",
      "All 5 tested parameters within specification")

  const Cc003: Json :=
    Item("CC-003", "Production Parameter Range Compliance",
      "Verify all production parameters fall within approved ranges",
      "Compare planned parameters against PVR-2023-017 approved ranges",
      "All parameters within min-max approved range")

  const Cc004: Json :=
    Item("CC-004", "Quality Risk Assessment",
      "Confirm quality risk assessment completed with acceptable risk levels",
      "Review FMEA-based quality prediction output",
      "No HIGH or CRITICAL risk failure modes identified")

  const Cc005: Json :=
    Item("CC-005", "Production Feasibility Confirmation",
      "Verify production timeline meets delivery requirements",
      "Compare lead time and production schedule against order deadline",
      "Estimated completion date on or before required delivery date")

  const Cc006: Json :=
    Item("CC-006", "EN 71-3 Chemical Safety Compliance",
      "Verify material complies with EN 71-3 migration limits for "
      + "elements in children's toys",
      "Material supplier certification and MS-4401 v3.2 compliance "
      + "confirmation",
      "Supplier provides EN 71-3 compliance certificate; material "
      + "passes MS-4401 v3.2")

  const Cc007: Json :=
    Item("CC-007", "REACH Regulation Compliance",
      "Verify material and plasticiser comply with REACH substance restrictions",
      "Review supplier REACH compliance declaration and material safety data sheet",
      "No REACH-restricted substances above threshold; supplier declaration on file")

  const ToyItems: seq<Json> := [Cc001, Cc002, Cc003, Cc004, Cc005, Cc006, Cc007]

  const ToyRegulations: seq<string> := [
    "EN 71-3:2019+A1:2021 (Safety of Toys — Migration of certain elements)",
    "REACH Regulation (EC) No 1907/2006",
    "UK Toy Safety Regulations 2011 (S.I. 2011/1881)"
  ]

  /** The checklists, keyed by normalised product category. */
  const ComplianceChecklists: map<string, Json> := map[
    "childrens_toy_production" := JObj(map[
      "checklist_name" := JStr("Children's Toy Production Compliance Checklist"),
      "reference" := JStr("CC-TOY-2024-R2"),
      "applicable_regulations" := Strs(ToyRegulations),
      "checklist_items" := JArr(ToyItems)
    ])
  ]

  const Note :=
    "Verify each checklist item against the outputs from upstream "
    + "agents (OrderAssess, SourceSelect, PlanBuilder, QualityPredict). "
    + "All items must PASS for production to be approved."

  /** The keys of a successful result. */
  const ResultKeys: set<string> := {
    "checklist_name", "reference", "applicable_regulations",
    "total_items", "checklist_items", "note"
  }

  predicate WellFormedRecord(record: Json) {
    && record.JObj?
    && {"checklist_name", "reference", "applicable_regulations", "checklist_items"}
         <= record.fields.Keys
    && record.fields["checklist_items"].JArr?
  }

  lemma ComplianceChecklistsShape(key: string)
    requires key in ComplianceChecklists
    ensures WellFormedRecord(ComplianceChecklists[key])
  {
    assert key == "childrens_toy_production";
  }

  function NotFoundMessage(key: string): string {
    "Error: Product category '" + key + "' not found in compliance checklist database."
  }

  /** The normalised `product_category` argument the table is searched for. */
  function LookupKey(args: Args): (key: string)
    ensures key == ReplaceChar(Lower(Arg(args, "product_category", DefaultProductCategory)), ' ', '_')
  {
    NormalisedArg(args, "product_category", DefaultProductCategory)
  }

  /** The dict the tool returns for a record: its name, reference,
      regulations and items unchanged, the number of items, and the note. */
  function View(record: Json): (r: Json)
    requires WellFormedRecord(record)
    ensures r.JObj? && r.fields.Keys == ResultKeys
    ensures r.fields["checklist_items"] == record.fields["checklist_items"]
    ensures r.fields["total_items"] == JInt(|record.fields["checklist_items"].items|)
    ensures r.fields["applicable_regulations"] == record.fields["applicable_regulations"]
    ensures r.fields["checklist_name"] == record.fields["checklist_name"]
    ensures r.fields["reference"] == record.fields["reference"]
    ensures r.fields["note"] == JStr(Note)
  {
    var f := record.fields;
    JObj(map[
      "checklist_name" := f["checklist_name"],
      "reference" := f["reference"],
      "applicable_regulations" := f["applicable_regulations"],
      "total_items" := JInt(|f["checklist_items"].items|),
      "checklist_items" := f["checklist_items"],
      "note" := JStr(Note)
    ])
  }

  /** `ComplianceChecklistDatabase.invoke`: an unknown category is an error
      naming the normalised key; a known one gives the record's view, whose
      count is the length of the list it returns. */
  function Invoke(args: Args): (r: Json)
    ensures LookupKey(args) !in ComplianceChecklists ==> r == JStr(NotFoundMessage(LookupKey(args)))
    ensures var key := LookupKey(args);
      key in ComplianceChecklists ==>
        var record := ComplianceChecklists[key].fields;
        && r.JObj? && r.fields.Keys == ResultKeys
        && "checklist_items" in record && record["checklist_items"].JArr?
        && r.fields["checklist_items"] == record["checklist_items"]
        && r.fields["total_items"] == JInt(|record["checklist_items"].items|)
        && r.fields["applicable_regulations"] == record["applicable_regulations"]
        && r.fields["note"] == JStr(Note)
  {
    var key := LookupKey(args);
    if key !in ComplianceChecklists then JStr(NotFoundMessage(key))
    else
      ComplianceChecklistsShape(key);
      View(ComplianceChecklists[key])
  }

  /** The one checklist has items CC-001 to CC-007, in order. */
  lemma ToyItemIds()
    ensures |ToyItems| == 7
    ensures Ids(ToyItems) == [JStr("CC-001"), JStr("CC-002"), JStr("CC-003"), JStr("CC-004"),
                              JStr("CC-005"), JStr("CC-006"), JStr("CC-007")]
  {
    var ids := Ids(ToyItems);
    assert ToyItems[0] == Cc001 && ToyItems[1] == Cc002 && ToyItems[2] == Cc003;
    assert ToyItems[3] == Cc004 && ToyItems[4] == Cc005 && ToyItems[5] == Cc006;
    assert ToyItems[6] == Cc007;
    assert ids[0] == JStr("CC-001");
    assert ids[1] == JStr("CC-002");
    assert ids[2] == JStr("CC-003");
    assert ids[3] == JStr("CC-004");
    assert ids[4] == JStr("CC-005");
    assert ids[5] == JStr("CC-006");
    assert ids[6] == JStr("CC-007");
  }

  /** A missing category selects the children's toy checklist: seven items
      under three regulations. */
  lemma DefaultCategorySucceeds()
    ensures Invoke(map[]).JObj?
    ensures Invoke(map[]).fields["total_items"] == JInt(7)
    ensures Invoke(map[]).fields["checklist_items"] == JArr(ToyItems)
    ensures Invoke(map[]).fields["applicable_regulations"] == Strs(ToyRegulations)
  {
    assert NormaliseKey("childrens_toy_production") == "childrens_toy_production";
    assert LookupKey(map[]) == "childrens_toy_production";
  }

  /** The display name keeps its apostrophe through normalisation, so
      "Children's Toy Production" is not found. */
  lemma ApostropheSpellingNotFound()
    ensures Invoke(map["product_category" := "Children's Toy Production"])
      == JStr(NotFoundMessage("children's_toy_production"))
  {
    assert NormaliseKey("Children's Toy Production") == "children's_toy_production";
    assert LookupKey(map["product_category" := "Children's Toy Production"])
      == "children's_toy_production";
    assert "children's_toy_production" !in ComplianceChecklists;
  }

  /** The spelling without the apostrophe finds the record. */
  lemma SpacedSpellingFindsRecord()
    ensures Invoke(map["product_category" := "Childrens Toy Production"]) == Invoke(map[])
  {
    assert NormaliseKey("Childrens Toy Production") == "childrens_toy_production";
    assert NormaliseKey("childrens_toy_production") == "childrens_toy_production";
    assert LookupKey(map[]) == LookupKey(map["product_category" := "Childrens Toy Production"]);
  }
}
