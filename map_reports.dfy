/** The map-reports route: every document of the `userReports` collection group
    becomes a map record tagged with the department its path belongs to. */
module MapReports {
  import opened Strings

  /** A stored field value (the record's other properties). */
  datatype FieldValue = Str(s: string) | Num(x: real) | Flag(b: bool) | Missing

  datatype ReportDoc = ReportDoc(id: string, path: string, data: map<string, FieldValue>)

  /** The department by priority: a later test in the route overrides an
      earlier one, so the last matching collection name wins. */
  function DepartmentOf(path: string): (d: string)
    ensures d in {"FIRE", "ELECTRICITY", "WATER", "WASTE", "INFRASTRUCTURE"}
    ensures Contains(path, "fireReports") ==> d == "FIRE"
    ensures !Contains(path, "fireReports") && Contains(path, "electricityReports") ==> d == "ELECTRICITY"
    ensures (!Contains(path, "fireReports") && !Contains(path, "electricityReports")
             && Contains(path, "waterReports")) ==> d == "WATER"
    ensures (!Contains(path, "fireReports") && !Contains(path, "electricityReports")
             && !Contains(path, "waterReports") && Contains(path, "wasteReports")) ==> d == "WASTE"
    ensures d == "INFRASTRUCTURE" <==>
      !Contains(path, "wasteReports") && !Contains(path, "waterReports")
      && !Contains(path, "electricityReports") && !Contains(path, "fireReports")
  {
    if Contains(path, "fireReports") then "FIRE"
    else if Contains(path, "electricityReports") then "ELECTRICITY"
    else if Contains(path, "waterReports") then "WATER"
    else if Contains(path, "wasteReports") then "WASTE"
    else "INFRASTRUCTURE"
  }

  /** The route's sequence of overriding tests. */
  method ClassifyPath(path: string) returns (department: string)
    ensures department == DepartmentOf(path)
  {
    department := "INFRASTRUCTURE";
    if Contains(path, "wasteReports") { department := "WASTE"; }
    if Contains(path, "waterReports") { department := "WATER"; }
    if Contains(path, "electricityReports") { department := "ELECTRICITY"; }
    if Contains(path, "fireReports") { department := "FIRE"; }
  }

  /** `{ id, department, ...data }`: stored fields are spread last and override both. */
  function RecordOf(doc: ReportDoc): (r: map<string, FieldValue>)
    ensures r.Keys == doc.data.Keys + {"id", "department"}
    ensures "id" in doc.data ==> r["id"] == doc.data["id"]
    ensures "id" !in doc.data ==> r["id"] == Str(doc.id)
    ensures "department" in doc.data ==> r["department"] == doc.data["department"]
    ensures "department" !in doc.data ==> r["department"] == Str(DepartmentOf(doc.path))
    ensures forall k :: k in doc.data ==> r[k] == doc.data[k]
  {
    map["id" := Str(doc.id), "department" := Str(DepartmentOf(doc.path))] + doc.data
  }

  /** One record per document, in snapshot order. */
  method MapRecords(docs: seq<ReportDoc>) returns (records: seq<map<string, FieldValue>>)
    ensures |records| == |docs|
    ensures forall k :: 0 <= k < |docs| ==> records[k] == RecordOf(docs[k])
  {
    records := [];
    var i := 0;
    while i < |docs|
      invariant 0 <= i <= |docs|
      invariant |records| == i
      invariant forall k :: 0 <= k < i ==> records[k] == RecordOf(docs[k])
    {
      var department := ClassifyPath(docs[i].path);
      records := records + [map["id" := Str(docs[i].id), "department" := Str(department)] + docs[i].data];
      i := i + 1;
    }
  }
}
