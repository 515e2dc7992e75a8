/**
 * DynamoExternalIdDao: a study's table of external identifiers, each optionally assigned to a
 * participant's health code; paged listing, bulk add and delete, and conditional assignment.
 */
module ExternalIdDao {
  import opened Wrappers
  import opened Text
  import opened Domain

  const PAGE_SCAN_LIMIT := 200

  datatype ExternalIdKey = ExternalIdKey(studyId: string, identifier: string)

  /** A stored row as the query returns it. */
  datatype ExternalIdRecord = ExternalIdRecord(identifier: string, healthCode: Option<string>)

  /** What a listing shows of a row. */
  datatype ExternalIdInfo = ExternalIdInfo(identifier: string, isAssigned: bool)

  /** One page of a DynamoDB query: the rows read and the key the read stopped at, if any. */
  datatype QueryPage = QueryPage(results: seq<ExternalIdRecord>, lastEvaluatedKey: Option<string>)

  datatype PagedList = PagedList(items: seq<ExternalIdInfo>, nextPageOffsetKey: Option<string>,
                                 offsetKey: Option<string>, pageSize: int)

  /** How the next-page key is chosen when a read page has rows that do not fit. */
  datatype KeyRule = AsWritten | Corrected

  /** The outcome of the paging loop; `unreturned` holds the last page's rows that did not fit. */
  datatype Paging = Paging(items: seq<ExternalIdInfo>, next: Option<string>, unreturned: seq<ExternalIdRecord>)

  function Info(r: ExternalIdRecord): (i: ExternalIdInfo)
    ensures i.identifier == r.identifier && (i.isAssigned <==> r.healthCode.Some?)
  {
    ExternalIdInfo(r.identifier, r.healthCode.Some?)
  }

  function Infos(rs: seq<ExternalIdRecord>): (r: seq<ExternalIdInfo>)
    ensures |r| == |rs| && forall i :: 0 <= i < |rs| ==> r[i] == Info(rs[i])
  {
    if rs == [] then [] else [Info(rs[0])] + Infos(rs[1..])
  }

  function Min(a: int, b: int): int { if a <= b then a else b }

  /** The rows of a page that fit on a listing already holding `have` entries. */
  function Fitting(have: nat, results: seq<ExternalIdRecord>, pageSize: nat): (r: seq<ExternalIdRecord>)
    requires have <= pageSize
    ensures r <= results && have + |r| <= pageSize
    ensures |r| < |results| ==> have + |r| == pageSize
  {
    results[..Min(pageSize - have, |results|)]
  }

  /** The next-page key after reading `page`; `items` already holds the rows that fitted. */
  function NextKey(rule: KeyRule, items: seq<ExternalIdInfo>, page: QueryPage, taken: nat, pageSize: nat): (r: Option<string>)
    requires 1 <= pageSize && |items| <= pageSize && taken <= |page.results|
    requires taken < |page.results| ==> |items| == pageSize
    requires |page.results| > pageSize ==> |items| == pageSize
    ensures rule.Corrected? && taken < |page.results| ==> r == Some(items[|items| - 1].identifier)
  {
    match rule
    case AsWritten =>
      if |page.results| > pageSize then Some(items[pageSize - 1].identifier) else page.lastEvaluatedKey
    case Corrected =>
      if taken < |page.results| then Some(items[|items| - 1].identifier) else page.lastEvaluatedKey
  }

  /** The query only goes on past a key it has not returned to before: each last evaluated key ranks lower. */
  ghost predicate Progresses(query: Option<string> -> QueryPage, rank: Option<string> -> nat) {
    forall k :: query(k).lastEvaluatedKey.Some? ==> rank(query(k).lastEvaluatedKey) < rank(k)
  }

  /** One pass of the paging loop over a read page: the rows that fit are added and the next key chosen. */
  function Step(rule: KeyRule, page: QueryPage, pageSize: nat, items: seq<ExternalIdInfo>): (r: Paging)
    requires 1 <= pageSize && |items| < pageSize
    ensures items <= r.items && |r.items| <= pageSize
    ensures r.unreturned != [] ==> |r.items| == pageSize
    ensures |r.items| < pageSize && r.next.Some? ==> r.next == page.lastEvaluatedKey
    ensures rule.Corrected? && r.unreturned != [] ==> r.next == Some(r.items[|r.items| - 1].identifier)
  {
    var fitting := Fitting(|items|, page.results, pageSize);
    var items' := items + Infos(fitting);
    Paging(items', NextKey(rule, items', page, |fitting|, pageSize), page.results[|fitting|..])
  }

  /** The paging loop of getExternalIds from `key`, with `items` collected so far: it stops once the
    * page is full or there is no next key. */
  function Paginate(rule: KeyRule, query: Option<string> -> QueryPage, rank: Option<string> -> nat,
                    pageSize: nat, key: Option<string>, items: seq<ExternalIdInfo>): (r: Paging)
    requires 1 <= pageSize && |items| < pageSize && Progresses(query, rank)
    ensures items <= r.items && |r.items| <= pageSize
    ensures |r.items| < pageSize ==> r.next.None?
    ensures r.unreturned != [] ==> |r.items| == pageSize
    ensures rule.Corrected? && r.unreturned != [] ==> r.next == Some(r.items[|r.items| - 1].identifier)
    decreases rank(key)
  {
    var s := Step(rule, query(key), pageSize, items);
    if |s.items| < pageSize && s.next.Some? then
      Paginate(rule, query, rank, pageSize, s.next, s.items)
    else
      s
  }

  /** The offset is dropped when an id filter is given that it does not start with. */
  function EffectiveOffset(offsetKey: Option<string>, idFilter: Option<string>): (r: Option<string>)
    ensures r.Some? ==> r == offsetKey
    ensures r.None? <==> offsetKey.None? || (idFilter.Some? && !StartsWith(offsetKey.value, idFilter.value))
  {
    if offsetKey.Some? && idFilter.Some? && !StartsWith(offsetKey.value, idFilter.value) then None else offsetKey
  }

  /** The page of getExternalIds in the example below, as written: the first read yields three rows and
    * stops at "c", the second yields five rows and reaches the end. Two of the five fit. */
  function ExampleQuery(k: Option<string>): QueryPage {
    var row := (id: string) => ExternalIdRecord(id, None);
    if k.None? then QueryPage([row("a"), row("b"), row("c")], Some("c"))
    else QueryPage([row("d"), row("e"), row("f"), row("g"), row("h")], None)
  }

  function ExampleRank(k: Option<string>): nat { if k.None? then 1 else 0 }

  /** As written, three rows read by the loop are neither returned nor reachable: the listing has no next key. */
  lemma AsWrittenDropsRows()
    ensures Progresses(ExampleQuery, ExampleRank)
    ensures var p := Paginate(AsWritten, ExampleQuery, ExampleRank, 5, None, []);
      |p.items| == 5 && p.next.None? && |p.unreturned| == 3
  {
    var p1 := ExampleQuery(None);
    assert Fitting(0, p1.results, 5) == p1.results;
    var items := Infos(p1.results);
    assert NextKey(AsWritten, items, p1, 3, 5) == Some("c");
    var p2 := ExampleQuery(Some("c"));
    assert Fitting(3, p2.results, 5) == p2.results[..2];
  }

  /** With the corrected rule the same listing continues after its last entry, "e". */
  lemma CorrectedKeepsRows()
    ensures var p := Paginate(Corrected, ExampleQuery, ExampleRank, 5, None, []);
      |p.items| == 5 && p.next == Some("e") && |p.unreturned| == 3
  {
    AsWrittenDropsRows();
    var p1 := ExampleQuery(None);
    assert Fitting(0, p1.results, 5) == p1.results;
    var p2 := ExampleQuery(Some("c"));
    assert Fitting(3, p2.results, 5) == p2.results[..2];
    assert Infos(p1.results) + Infos(p2.results[..2]) ==
      [ExternalIdInfo("a", false), ExternalIdInfo("b", false), ExternalIdInfo("c", false),
       ExternalIdInfo("d", false), ExternalIdInfo("e", false)];
  }

  class ExternalIdTable {
    /** The health code each stored identifier is assigned to, if any. */
    var records: map<ExternalIdKey, Option<string>>
    const addLimit: int
    const maximumPageSize: int

    constructor (addLimit: int, maximumPageSize: int)
      ensures records == map[] && this.addLimit == addLimit && this.maximumPageSize == maximumPageSize
    {
      records := map[];
      this.addLimit, this.maximumPageSize := addLimit, maximumPageSize;
    }

    /** getExternalId: the stored row, if any. */
    function GetExternalId(studyId: string, externalId: string): (r: Option<ExternalIdRecord>)
      reads this
      ensures r.Some? <==> ExternalIdKey(studyId, externalId) in records
      ensures r.Some? ==> r.value == ExternalIdRecord(externalId, records[ExternalIdKey(studyId, externalId)])
    {
      var key := ExternalIdKey(studyId, externalId);
      if key in records then Some(ExternalIdRecord(externalId, records[key])) else None
    }

    /** getExternalIds: `query` is the study's query with its filters and scan limit, from a start key;
      * `rule` picks the next-page key: as written, or continuing after the last returned entry. */
    method GetExternalIds(rule: KeyRule, offsetKey: Option<string>, pageSize: int, idFilter: Option<string>,
                          query: Option<string> -> QueryPage, ghost rank: Option<string> -> nat)
      returns (r: Result<PagedList, BridgeError>)
      requires Progresses(query, rank)
      ensures pageSize < 1 || pageSize > maximumPageSize <==> r.Err?
      ensures r.Err? ==> r.error == BadRequest("pageSize must be from 1-" + IntToDecimal(maximumPageSize) + " records")
      ensures r.Ok? ==>
        var p := Paginate(rule, query, rank, pageSize, EffectiveOffset(offsetKey, idFilter), []);
        r.value == PagedList(p.items, p.next, EffectiveOffset(offsetKey, idFilter), pageSize)
      ensures r.Ok? ==> |r.value.items| <= pageSize
    {
      if pageSize < 1 || pageSize > maximumPageSize {
        return Err(BadRequest("pageSize must be from 1-" + IntToDecimal(maximumPageSize) + " records"));
      }
      var start := offsetKey;
      if start.Some? && idFilter.Some? && !StartsWith(start.value, idFilter.value) {
        start := None;
      }
      ghost var spec := Paginate(rule, query, rank, pageSize, start, []);
      var items, next := ReadPage(rule, [], query(start), pageSize);
      while |items| < pageSize && next.Some?
        invariant |items| <= pageSize
        invariant |items| < pageSize && next.Some? ==> spec == Paginate(rule, query, rank, pageSize, next, items)
        invariant !(|items| < pageSize && next.Some?) ==> spec.items == items && spec.next == next
        decreases if |items| < pageSize && next.Some? then rank(next) + 1 else 0
      {
        items, next := ReadPage(rule, items, query(next), pageSize);
      }
      return Ok(PagedList(items, next, start, pageSize));
    }

    /** The body of getExternalIds' do-while loop over one read page. */
    static method ReadPage(rule: KeyRule, items: seq<ExternalIdInfo>, list: QueryPage, pageSize: nat)
      returns (items': seq<ExternalIdInfo>, next: Option<string>)
      requires 1 <= pageSize && |items| < pageSize
      ensures var s := Step(rule, list, pageSize, items); items' == s.items && next == s.next
    {
      var taken;
      items', taken := TakeFitting(items, list.results, pageSize);
      if rule.AsWritten? {
        next := if |list.results| > pageSize then Some(items'[pageSize - 1].identifier) else list.lastEvaluatedKey;
      } else {
        next := if taken < |list.results| then Some(items'[|items'| - 1].identifier) else list.lastEvaluatedKey;
      }
    }

    /** The inner loop of getExternalIds: rows are added until the page is full. */
    static method TakeFitting(items: seq<ExternalIdInfo>, results: seq<ExternalIdRecord>, pageSize: nat)
      returns (r: seq<ExternalIdInfo>, taken: nat)
      requires |items| <= pageSize
      ensures taken == |Fitting(|items|, results, pageSize)| && r == items + Infos(Fitting(|items|, results, pageSize))
    {
      r := items;
      taken := 0;
      for j := 0 to |results|
        invariant taken == Min(pageSize - |items|, j)
        invariant r == items + Infos(results[..taken]) && |r| == |items| + taken
      {
        if |r| == pageSize {
          break;
        }
        r := r + [Info(results[j])];
        assert results[..j + 1] == results[..j] + [results[j]];
        InfosAppend(results[..j], results[j]);
        taken := taken + 1;
      }
    }

    /** addExternalIds: too many at once is refused; otherwise only identifiers not yet stored are
      * saved, unassigned, and every stored row is kept as it was. */
    method AddExternalIds(studyId: string, externalIds: seq<string>) returns (r: Result<(), BridgeError>)
      modifies this
      ensures |externalIds| > addLimit ==>
        r == Err(BadRequest("List of externalIds is too large; size=" + IntToDecimal(|externalIds|) +
                            ", limit=" + IntToDecimal(addLimit))) && records == old(records)
      ensures |externalIds| <= addLimit ==>
        (r.Ok? && records.Keys == old(records).Keys + (set id | id in externalIds :: ExternalIdKey(studyId, id)))
      ensures forall k :: k in old(records) ==> k in records && records[k] == old(records)[k]
      ensures forall k :: k in records && k !in old(records) ==> records[k].None?
    {
      if |externalIds| > addLimit {
        return Err(BadRequest("List of externalIds is too large; size=" + IntToDecimal(|externalIds|) +
                              ", limit=" + IntToDecimal(addLimit)));
      }
      var toSave := set id | id in externalIds && ExternalIdKey(studyId, id) !in records :: ExternalIdKey(studyId, id);
      records := records + map k | k in toSave :: None;
      return Ok(());
    }

    /** assignExternalId: a missing identifier, or one already held by this health code, is left alone;
      * otherwise the save succeeds only when no health code is stored yet. */
    method AssignExternalId(studyId: string, externalId: string, healthCode: string) returns (r: Result<(), BridgeError>)
      modifies this
      ensures IsBlank(externalId) || IsBlank(healthCode) ==> r == Err(IllegalArgument) && records == old(records)
      ensures !IsBlank(externalId) && !IsBlank(healthCode) ==>
        var key := ExternalIdKey(studyId, externalId);
        if key !in old(records) || old(records)[key] == Some(healthCode) then r.Ok? && records == old(records)
        else if old(records)[key].Some? then
          r == Err(EntityAlreadyExists("ExternalIdentifier", externalId)) && records == old(records)
        else r.Ok? && records == old(records)[key := Some(healthCode)]
    {
      if IsBlank(externalId) || IsBlank(healthCode) {
        return Err(IllegalArgument);
      }
      var identifier := GetExternalId(studyId, externalId);
      if identifier.Some? && identifier.value.healthCode != Some(healthCode) {
        if identifier.value.healthCode.Some? {
          return Err(EntityAlreadyExists("ExternalIdentifier", externalId));
        }
        records := records[ExternalIdKey(studyId, externalId) := Some(healthCode)];
      }
      return Ok(());
    }

    /** unassignExternalId: clears the health code of a stored identifier; a missing one is ignored. */
    method UnassignExternalId(studyId: string, externalId: string) returns (r: Result<(), BridgeError>)
      modifies this
      ensures IsBlank(externalId) ==> r == Err(IllegalArgument) && records == old(records)
      ensures !IsBlank(externalId) ==>
        (r.Ok? &&
         var key := ExternalIdKey(studyId, externalId);
         records == if key in old(records) then old(records)[key := None] else old(records))
    {
      if IsBlank(externalId) {
        return Err(IllegalArgument);
      }
      var identifier := GetExternalId(studyId, externalId);
      if identifier.Some? {
        records := records[ExternalIdKey(studyId, externalId) := None];
      }
      return Ok(());
    }

    /** deleteExternalIds: removes the listed identifiers; an empty list touches nothing. */
    method DeleteExternalIds(studyId: string, externalIds: seq<string>)
      modifies this
      ensures externalIds == [] ==> records == old(records)
      ensures records == old(records) - (set id | id in externalIds :: ExternalIdKey(studyId, id))
    {
      if externalIds != [] {
        records := records - (set id | id in externalIds :: ExternalIdKey(studyId, id));
      }
    }
  }

  lemma InfosAppend(rs: seq<ExternalIdRecord>, x: ExternalIdRecord)
    ensures Infos(rs + [x]) == Infos(rs) + [Info(x)]
  {
  }
}
