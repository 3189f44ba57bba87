/**
 * The progress-record data layer: the list request's query string, built by successive
 * conditional appends; the keys each mutation hook invalidates; and the query guards.
 */
module ProgressService {
  import opened Common
  import opened Text

  /** The list filters; every one may be absent. */
  datatype ProgressFilters = ProgressFilters(
    studentId: Option<string>, startDate: Option<string>, endDate: Option<string>,
    page: Option<int>, limit: Option<int>)

  const NoFilters := ProgressFilters(None, None, None, None, None)

  /** A number's truthiness: present and not 0. */
  predicate Present(n: Option<int>) {
    n.Some? && n.value != 0
  }

  /** `name=value` pairs joined by "&"; `encode` is the form encoding URLSearchParams applies. */
  function Serialize(entries: seq<(string, string)>, encode: string -> string): string {
    JoinWith(seq(|entries|, k requires 0 <= k < |entries| => encode(entries[k].0) + "=" + encode(entries[k].1)), "&")
  }

  /** A URLSearchParams instance: the pairs appended so far, in order. */
  class SearchParams {
    var entries: seq<(string, string)>

    constructor()
      ensures entries == []
    {
      entries := [];
    }

    method Append(name: string, value: string)
      modifies this
      ensures entries == old(entries) + [(name, value)]
    {
      entries := entries + [(name, value)];
    }

    function ToString(encode: string -> string): string
      reads this
    {
      Serialize(entries, encode)
    }
  }

  /** Reference list of the pairs getAll appends: the present filters, in their fixed order. */
  function Appended(f: ProgressFilters): seq<(string, string)> {
    (if Truthy(f.studentId) then [("studentId", f.studentId.value)] else [])
    + (if Truthy(f.startDate) then [("startDate", f.startDate.value)] else [])
    + (if Truthy(f.endDate) then [("endDate", f.endDate.value)] else [])
    + (if Present(f.page) then [("page", IntToString(f.page.value))] else [])
    + (if Present(f.limit) then [("limit", IntToString(f.limit.value))] else [])
  }

  /** progressService.getAll's request path. */
  method GetAllPath(f: ProgressFilters, encode: string -> string) returns (path: string)
    ensures path == "/progress?" + Serialize(Appended(f), encode)
  {
    ghost var e1 := if Truthy(f.studentId) then [("studentId", f.studentId.value)] else [];
    ghost var e2 := if Truthy(f.startDate) then [("startDate", f.startDate.value)] else [];
    ghost var e3 := if Truthy(f.endDate) then [("endDate", f.endDate.value)] else [];
    ghost var e4 := if Present(f.page) then [("page", IntToString(f.page.value))] else [];
    ghost var e5 := if Present(f.limit) then [("limit", IntToString(f.limit.value))] else [];
    var params := new SearchParams();
    if Truthy(f.studentId) {
      params.Append("studentId", f.studentId.value);
    }
    assert params.entries == e1;
    if Truthy(f.startDate) {
      params.Append("startDate", f.startDate.value);
    }
    assert params.entries == e1 + e2;
    if Truthy(f.endDate) {
      params.Append("endDate", f.endDate.value);
    }
    assert params.entries == e1 + e2 + e3;
    if Present(f.page) {
      params.Append("page", IntToString(f.page.value));
    }
    assert params.entries == e1 + e2 + e3 + e4;
    if Present(f.limit) {
      params.Append("limit", IntToString(f.limit.value));
    }
    assert params.entries == e1 + e2 + e3 + e4 + e5 == Appended(f);
    path := "/progress?" + params.ToString(encode);
  }

  /** The position of each parameter name in the fixed order. */
  function Rank(name: string): int {
    if name == "studentId" then 0
    else if name == "startDate" then 1
    else if name == "endDate" then 2
    else if name == "page" then 3
    else if name == "limit" then 4
    else 5
  }

  /** The ranks of the five names getAll appends. */
  lemma RankOfNames()
    ensures Rank("studentId") == 0 && Rank("startDate") == 1 && Rank("endDate") == 2
    ensures Rank("page") == 3 && Rank("limit") == 4
  {
  }

  /** Each name ranks strictly above the names before it. */
  predicate RanksIncrease(a: seq<(string, string)>) {
    forall i, j :: 0 <= i < j < |a| ==> Rank(a[i].0) < Rank(a[j].0)
  }

  /**
   * The parameters come in the order studentId, startDate, endDate, page, limit, each at most
   * once and none other.
   */
  lemma AppendedOrder(f: ProgressFilters)
    ensures var a := Appended(f);
      |a| <= 5 && RanksIncrease(a) && forall i :: 0 <= i < |a| ==> Rank(a[i].0) < 5
  {
    RankOfNames();
  }

  /** A parameter is present exactly when its filter is truthy: a page or limit of 0 is left out. */
  lemma AppendedPresence(f: ProgressFilters)
    ensures var a := Appended(f);
      ((exists i :: 0 <= i < |a| && a[i].0 == "page") <==> Present(f.page))
      && ((exists i :: 0 <= i < |a| && a[i].0 == "limit") <==> Present(f.limit))
      && ((exists i :: 0 <= i < |a| && a[i].0 == "studentId") <==> Truthy(f.studentId))
  {
    var a := Appended(f);
    AppendedOrder(f);
    if Present(f.page) {
      var i := |a| - 1 - (if Present(f.limit) then 1 else 0);
      assert a[i].0 == "page";
    }
    if Present(f.limit) {
      assert a[|a| - 1].0 == "limit";
    }
    if Truthy(f.studentId) {
      assert a[0].0 == "studentId";
    }
  }

  /** Without filters the request is "/progress?" and nothing more. */
  lemma NoFiltersPath(encode: string -> string)
    ensures "/progress?" + Serialize(Appended(NoFilters), encode) == "/progress?"
  {
  }

  /** A page filter of 0 produces the same request as no page filter. */
  lemma ZeroPageOmitted(f: ProgressFilters)
    ensures Appended(f.(page := Some(0))) == Appended(f.(page := None))
    ensures Appended(f.(limit := Some(0))) == Appended(f.(limit := None))
  {
  }

  datatype RecordHook = CreateRecord | UpdateRecord | DeleteRecord

  /** The query keys each mutation hook's onSuccess invalidates. */
  function Invalidated(h: RecordHook): (keys: set<string>)
    ensures "progressRecords" in keys
    ensures "progressRecord" in keys <==> h == UpdateRecord
    ensures keys <= {"progressRecords", "progressRecord"}
  {
    match h
    case CreateRecord => {"progressRecords"}
    case UpdateRecord => {"progressRecords", "progressRecord"}
    case DeleteRecord => {"progressRecords"}
  }

  /**
   * Creating and deleting refresh the same lists, updating also the single record; the student
   * history query ("studentHistory") is refreshed by none of them.
   */
  lemma InvalidationKeys(h: RecordHook)
    ensures Invalidated(CreateRecord) == Invalidated(DeleteRecord) < Invalidated(UpdateRecord)
    ensures "studentHistory" !in Invalidated(h)
  {
    assert "progressRecord" in Invalidated(UpdateRecord) - Invalidated(CreateRecord);
  }

  /** The single-record and history queries run only for a non-empty id (`enabled: !!id`). */
  function QueryEnabled(id: string): (enabled: bool)
    ensures enabled <==> |id| > 0
  {
    id != ""
  }
}
