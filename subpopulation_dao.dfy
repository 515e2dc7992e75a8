/**
 * DynamoSubpopulationDao: the consent groups (subpopulations) of a study, with their
 * create, update and logical-delete rules, the lazily created default group, and the
 * choice of the best-matching group for a user.
 */
module SubpopulationDao {
  import opened Wrappers
  import opened Domain
  import opened Criteria

  datatype Subpopulation = Subpopulation(
    studyId: string,
    guid: string,
    name: string,
    version: Option<int>,
    deleted: bool,
    required: bool,
    minAppVersion: Option<int>,
    criteria: Criteria)

  /** Criteria that constrain nothing. */
  const NoCriteria := Criteria(None, [], [], map[], map[])

  const DEFAULT_NAME := "Default Consent Group"

  function DefaultSubpopulation(studyId: string): (r: Subpopulation)
    ensures r.studyId == studyId && r.guid == studyId && r.required && !r.deleted
    ensures r.minAppVersion == Some(0) && r.name == DEFAULT_NAME
  {
    Subpopulation(studyId, studyId, DEFAULT_NAME, None, false, true, Some(0), NoCriteria)
  }

  predicate SameKey(a: Subpopulation, b: Subpopulation) {
    a.studyId == b.studyId && a.guid == b.guid
  }

  /** No two records share a (study, guid) key. */
  predicate UniqueKeys(rs: seq<Subpopulation>) {
    forall i, j :: 0 <= i < j < |rs| ==> !SameKey(rs[i], rs[j])
  }

  /** The record stored under (studyId, guid), as the table's load. */
  function Lookup(rs: seq<Subpopulation>, studyId: string, guid: string): (r: Option<Subpopulation>)
    ensures r.Some? ==> r.value in rs && r.value.studyId == studyId && r.value.guid == guid
    ensures r.None? <==> forall x :: x in rs ==> x.studyId != studyId || x.guid != guid
  {
    if rs == [] then None
    else if rs[0].studyId == studyId && rs[0].guid == guid then Some(rs[0])
    else Lookup(rs[1..], studyId, guid)
  }

  /** The table after the mapper saves s: the record under s's key is replaced, or s is added. */
  function Saved(rs: seq<Subpopulation>, s: Subpopulation): (r: seq<Subpopulation>)
    ensures Lookup(r, s.studyId, s.guid) == Some(s)
    ensures forall x :: x in r ==> x == s || x in rs
  {
    if rs == [] then [s]
    else if SameKey(rs[0], s) then [s] + rs[1..]
    else [rs[0]] + Saved(rs[1..], s)
  }

  /** Saving one record leaves every other key's record as it was. */
  lemma {:induction false} SavedKeepsOthers(rs: seq<Subpopulation>, s: Subpopulation, studyId: string, guid: string)
    requires studyId != s.studyId || guid != s.guid
    ensures Lookup(Saved(rs, s), studyId, guid) == Lookup(rs, studyId, guid)
  {
    if rs != [] && !SameKey(rs[0], s) {
      SavedKeepsOthers(rs[1..], s, studyId, guid);
    }
  }

  /** Saving keeps the keys unique. */
  lemma {:induction false} SavedKeepsUnique(rs: seq<Subpopulation>, s: Subpopulation)
    requires UniqueKeys(rs)
    ensures UniqueKeys(Saved(rs, s))
  {
    if rs != [] {
      UniqueTail(rs);
      if SameKey(rs[0], s) {
        UniqueCons(s, rs[1..]);
      } else {
        var tail := Saved(rs[1..], s);
        SavedKeepsUnique(rs[1..], s);
        assert forall y :: y in tail ==> y == s || y in rs[1..];
        UniqueCons(rs[0], tail);
      }
    }
  }

  /** The first record saved for a study is the study's only record. */
  lemma {:induction false} SavedIntoEmptyStudy(rs: seq<Subpopulation>, s: Subpopulation)
    requires StudyRecords(rs, s.studyId) == []
    ensures StudyRecords(Saved(rs, s), s.studyId) == [s]
  {
    if rs != [] {
      assert rs[0].studyId != s.studyId;
      assert StudyRecords(rs[1..], s.studyId) == [];
      SavedIntoEmptyStudy(rs[1..], s);
    }
  }

  /** The query on the study's hash key: every physical record of the study, deleted or not. */
  function StudyRecords(rs: seq<Subpopulation>, studyId: string): (r: seq<Subpopulation>)
    ensures forall x :: x in r <==> x in rs && x.studyId == studyId
  {
    if rs == [] then []
    else (if rs[0].studyId == studyId then [rs[0]] else []) + StudyRecords(rs[1..], studyId)
  }

  /** The records of every study but `studyId`, in order: what deleteAllSubpopulations leaves. */
  function OtherStudyRecords(rs: seq<Subpopulation>, studyId: string): (r: seq<Subpopulation>)
    ensures forall x :: x in r <==> x in rs && x.studyId != studyId
  {
    if rs == [] then []
    else (if rs[0].studyId != studyId then [rs[0]] else []) + OtherStudyRecords(rs[1..], studyId)
  }

  /** A unique table's first key differs from every later one, and its tail is unique. */
  lemma UniqueTail(rs: seq<Subpopulation>)
    requires rs != [] && UniqueKeys(rs)
    ensures UniqueKeys(rs[1..])
    ensures forall y :: y in rs[1..] ==> !SameKey(rs[0], y)
  {
    forall i, j | 0 <= i < j < |rs[1..]| ensures !SameKey(rs[1..][i], rs[1..][j]) {
      assert rs[1..][i] == rs[i + 1] && rs[1..][j] == rs[j + 1];
    }
    forall y | y in rs[1..] ensures !SameKey(rs[0], y) {
      var k :| 0 <= k < |rs[1..]| && rs[1..][k] == y;
      assert y == rs[k + 1];
    }
  }

  /** A key differing from every key of a unique table can go in front of it. */
  lemma UniqueCons(x: Subpopulation, rest: seq<Subpopulation>)
    requires UniqueKeys(rest) && forall y :: y in rest ==> !SameKey(x, y)
    ensures UniqueKeys([x] + rest)
  {
    var r := [x] + rest;
    forall i, j | 0 <= i < j < |r| ensures !SameKey(r[i], r[j]) {
      assert r[j] == rest[j - 1];
      if i > 0 {
        assert r[i] == rest[i - 1];
      }
    }
  }

  /** Dropping one study's records keeps the keys unique. */
  lemma {:induction false} OtherStudyRecordsKeepUnique(rs: seq<Subpopulation>, studyId: string)
    requires UniqueKeys(rs)
    ensures UniqueKeys(OtherStudyRecords(rs, studyId))
  {
    if rs != [] {
      UniqueTail(rs);
      OtherStudyRecordsKeepUnique(rs[1..], studyId);
      var rest := OtherStudyRecords(rs[1..], studyId);
      if rs[0].studyId != studyId {
        UniqueCons(rs[0], rest);
        assert OtherStudyRecords(rs, studyId) == [rs[0]] + rest;
      } else {
        assert OtherStudyRecords(rs, studyId) == rest;
      }
    }
  }

  /** After deleteAllSubpopulations the study has no records, and every other study keeps exactly its own. */
  lemma {:induction false} OtherStudyRecordsSplit(rs: seq<Subpopulation>, studyId: string, other: string)
    ensures StudyRecords(OtherStudyRecords(rs, studyId), studyId) == []
    ensures other != studyId ==> StudyRecords(OtherStudyRecords(rs, studyId), other) == StudyRecords(rs, other)
  {
    if rs != [] {
      OtherStudyRecordsSplit(rs[1..], studyId, other);
      var rest := OtherStudyRecords(rs[1..], studyId);
      var r := OtherStudyRecords(rs, studyId);
      if rs[0].studyId != studyId {
        assert r == [rs[0]] + rest && r[0] == rs[0] && r[1..] == rest;
      } else {
        assert r == rest;
      }
    }
  }

  function Live(subs: seq<Subpopulation>, includeDeleted: bool): (r: seq<Subpopulation>)
    ensures forall x :: x in r <==> x in subs && (includeDeleted || !x.deleted)
  {
    if subs == [] then []
    else (if includeDeleted || !subs[0].deleted then [subs[0]] else []) + Live(subs[1..], includeDeleted)
  }

  /** Ordered by the specificity sorter, which this model sees only as a rank per subpopulation. */
  predicate SortedBy(s: seq<Subpopulation>, rank: Subpopulation -> int) {
    forall i, j :: 0 <= i < j < |s| ==> rank(s[i]) <= rank(s[j])
  }

  /** Inserts x after every element ranked no higher, which keeps the sort stable. */
  function Insert(x: Subpopulation, s: seq<Subpopulation>, rank: Subpopulation -> int): seq<Subpopulation> {
    if s == [] then [x]
    else if rank(x) < rank(s[0]) then [x] + s
    else [s[0]] + Insert(x, s[1..], rank)
  }

  /** Insertion adds x and loses nothing. */
  lemma {:induction false} InsertPermutes(x: Subpopulation, s: seq<Subpopulation>, rank: Subpopulation -> int)
    ensures multiset(Insert(x, s, rank)) == multiset(s) + multiset{x}
  {
    if s == [] {
    } else if rank(x) < rank(s[0]) {
      assert Insert(x, s, rank) == [x] + s;
    } else {
      var tail := Insert(x, s[1..], rank);
      InsertPermutes(x, s[1..], rank);
      assert Insert(x, s, rank) == [s[0]] + tail;
      assert s == [s[0]] + s[1..];
      assert multiset([s[0]] + tail) == multiset{s[0]} + multiset(tail);
      assert multiset(s) == multiset{s[0]} + multiset(s[1..]);
    }
  }

  /** The elements after insertion are those of s and x. */
  lemma {:induction false} InsertMembers(x: Subpopulation, s: seq<Subpopulation>, rank: Subpopulation -> int, y: Subpopulation)
    ensures y in Insert(x, s, rank) <==> y in s || y == x
  {
    if s != [] && rank(x) >= rank(s[0]) {
      InsertMembers(x, s[1..], rank, y);
      assert Insert(x, s, rank) == [s[0]] + Insert(x, s[1..], rank);
      assert s == [s[0]] + s[1..];
    }
  }

  /** Insertion into a sorted sequence leaves it sorted. */
  lemma {:induction false} InsertKeepsSorted(x: Subpopulation, s: seq<Subpopulation>, rank: Subpopulation -> int)
    requires SortedBy(s, rank)
    ensures SortedBy(Insert(x, s, rank), rank)
  {
    if s == [] {
    } else if rank(x) < rank(s[0]) {
      var r := [x] + s;
      assert Insert(x, s, rank) == r;
      forall i, j | 0 <= i < j < |r| ensures rank(r[i]) <= rank(r[j]) {
        if i == 0 {
          assert rank(s[0]) <= rank(s[j - 1]);
        } else {
          assert r[i] == s[i - 1] && r[j] == s[j - 1];
        }
      }
    } else {
      var rest := s[1..];
      assert SortedBy(rest, rank) by {
        forall i, j | 0 <= i < j < |rest| ensures rank(rest[i]) <= rank(rest[j]) {
          assert rest[i] == s[i + 1] && rest[j] == s[j + 1];
        }
      }
      var tail := Insert(x, rest, rank);
      InsertKeepsSorted(x, rest, rank);
      var r := [s[0]] + tail;
      assert Insert(x, s, rank) == r;
      forall i, j | 0 <= i < j < |r| ensures rank(r[i]) <= rank(r[j]) {
        if i == 0 {
          var y := tail[j - 1];
          InsertMembers(x, rest, rank, y);
          if y != x {
            var k :| 0 <= k < |rest| && rest[k] == y;
            assert s[k + 1] == y;
          }
        } else {
          assert r[i] == tail[i - 1] && r[j] == tail[j - 1];
        }
      }
    }
  }

  /** The sorted() step of the stream: a permutation of s ordered by rank. */
  function Sort(s: seq<Subpopulation>, rank: Subpopulation -> int): (r: seq<Subpopulation>)
    ensures SortedBy(r, rank)
    ensures multiset(r) == multiset(s)
  {
    if s == [] then []
    else
      var init, last := s[..|s| - 1], s[|s| - 1];
      assert s == init + [last];
      InsertPermutes(last, Sort(init, rank), rank);
      InsertKeepsSorted(last, Sort(init, rank), rank);
      Insert(last, Sort(init, rank), rank)
  }

  /** The subpopulations, in order, whose criteria match the context. */
  function MatchesOf(ctx: CriteriaContext, subs: seq<Subpopulation>): (r: seq<Subpopulation>)
    ensures forall x :: x in r <==> x in subs && Matches(ctx, x.criteria)
  {
    if subs == [] then []
    else
      var last := subs[|subs| - 1];
      MatchesOf(ctx, subs[..|subs| - 1]) + (if Matches(ctx, last.criteria) then [last] else [])
  }

  lemma {:induction false} SortedHeadIsLeast(s: seq<Subpopulation>, rank: Subpopulation -> int, x: Subpopulation)
    requires SortedBy(s, rank) && x in s
    ensures rank(s[0]) <= rank(x)
  {
    var i :| 0 <= i < |s| && s[i] == x;
    if i > 0 {
      assert rank(s[0]) <= rank(s[i]);
    }
  }

  class SubpopulationTable {
    /** The table's records in query order. */
    var records: seq<Subpopulation>

    ghost predicate Valid()
      reads this
    {
      UniqueKeys(records)
    }

    constructor ()
      ensures Valid() && records == []
    {
      records := [];
    }

    /** createSubpopulation: only an unsaved, undeleted, optional subpopulation is accepted. */
    method CreateSubpopulation(subpop: Subpopulation) returns (r: Result<Subpopulation, BridgeError>)
      requires Valid()
      modifies this
      ensures Valid()
      ensures (subpop.version.Some? || subpop.deleted || subpop.required) ==>
        r == Err(BadRequest("Subpopulation does not appear to be a new object")) && records == old(records)
      ensures !(subpop.version.Some? || subpop.deleted || subpop.required) ==>
        r == Ok(subpop) && records == Saved(old(records), subpop)
    {
      if subpop.version.Some? || subpop.deleted || subpop.required {
        return Err(BadRequest("Subpopulation does not appear to be a new object"));
      }
      SavedKeepsUnique(records, subpop);
      records := Saved(records, subpop);
      return Ok(subpop);
    }

    /** getSubpopulation: the stored record, or EntityNotFound. */
    function GetSubpopulation(studyId: string, guid: string): (r: Result<Subpopulation, BridgeError>)
      reads this
      ensures r.Err? <==> Lookup(records, studyId, guid).None?
      ensures r.Err? ==> r.error == EntityNotFound("Subpopulation")
      ensures r.Ok? ==> r.value in records && r.value.studyId == studyId && r.value.guid == guid
    {
      match Lookup(records, studyId, guid)
      case None => Err(EntityNotFound("Subpopulation"))
      case Some(s) => Ok(s)
    }

    /** updateSubpopulation: a saved version is needed, the record must exist and not be deleted,
      * and the stored required flag is kept whatever the update says. */
    method UpdateSubpopulation(subpop: Subpopulation) returns (r: Result<Subpopulation, BridgeError>)
      requires Valid()
      modifies this
      ensures Valid()
      ensures subpop.version.None? ==> r == Err(NullPointer) && records == old(records)
      ensures subpop.version.Some? ==>
        match Lookup(old(records), subpop.studyId, subpop.guid)
        case None => r == Err(EntityNotFound("Subpopulation")) && records == old(records)
        case Some(existing) =>
          if existing.deleted then r == Err(EntityNotFound("Subpopulation")) && records == old(records)
          else r == Ok(subpop.(required := existing.required)) && records == Saved(old(records), r.value)
    {
      if subpop.version.None? {
        return Err(NullPointer);
      }
      var existing := GetSubpopulation(subpop.studyId, subpop.guid);
      if existing.Err? {
        return Err(existing.error);
      }
      if existing.value.deleted {
        return Err(EntityNotFound("Subpopulation"));
      }
      var saved := subpop.(required := existing.value.required);
      SavedKeepsUnique(records, saved);
      records := Saved(records, saved);
      return Ok(saved);
    }

    /** createDefaultSubpopulation: the required group named after the study, saved. */
    method CreateDefaultSubpopulation(studyId: string) returns (subpop: Subpopulation)
      requires Valid()
      modifies this
      ensures Valid()
      ensures subpop == DefaultSubpopulation(studyId) && records == Saved(old(records), subpop)
    {
      subpop := DefaultSubpopulation(studyId);
      SavedKeepsUnique(records, subpop);
      records := Saved(records, subpop);
    }

    /** getSubpopulations: the listing, saving the default group when the listing is that group. */
    method GetSubpopulations(studyId: string, createDefault: bool, includeDeleted: bool, rank: Subpopulation -> int)
      returns (subpops: seq<Subpopulation>)
      requires Valid()
      modifies this
      ensures Valid()
      ensures subpops == Listing(old(records), studyId, createDefault, includeDeleted, rank)
      ensures records == if createDefault && StudyRecords(old(records), studyId) == []
        then Saved(old(records), DefaultSubpopulation(studyId)) else old(records)
    {
      var physical := StudyRecords(records, studyId);
      if createDefault && physical == [] {
        var subpop := CreateDefaultSubpopulation(studyId);
        return [subpop];
      }
      subpops := Sort(Live(physical, includeDeleted), rank);
    }

    /** getSubpopulationForUser: the best match among the listing with the default created and
      * deleted groups left out. */
    method GetSubpopulationForUser(ctx: CriteriaContext, studyId: string, rank: Subpopulation -> int)
      returns (r: Option<Subpopulation>)
      requires Valid()
      modifies this
      ensures Valid()
      ensures r == BestMatch(ctx, Listing(old(records), studyId, true, false, rank), rank)
      ensures records == if StudyRecords(old(records), studyId) == []
        then Saved(old(records), DefaultSubpopulation(studyId)) else old(records)
    {
      var subpops := GetSubpopulations(studyId, true, false, rank);
      var found := CollectMatches(ctx, subpops);
      if found == [] {
        return None;
      }
      var sorted := Sort(found, rank);
      return Some(sorted[0]);
    }

    /** deleteSubpopulation: the required group cannot be deleted; any other is only flagged deleted. */
    method DeleteSubpopulation(studyId: string, guid: string) returns (r: Result<(), BridgeError>)
      requires Valid()
      modifies this
      ensures Valid()
      ensures match Lookup(old(records), studyId, guid)
        case None => r == Err(EntityNotFound("Subpopulation")) && records == old(records)
        case Some(s) =>
          if s.required then r == Err(BadRequest("Cannot delete the default subpopulation for a study.")) && records == old(records)
          else r.Ok? && records == Saved(old(records), s.(deleted := true))
    {
      var subpop := GetSubpopulation(studyId, guid);
      if subpop.Err? {
        return Err(subpop.error);
      }
      if subpop.value.required {
        return Err(BadRequest("Cannot delete the default subpopulation for a study."));
      }
      SavedKeepsUnique(records, subpop.value.(deleted := true));
      records := Saved(records, subpop.value.(deleted := true));
      return Ok(());
    }

    /** deleteAllSubpopulations: every record of the study, deleted or not, is removed. */
    method DeleteAllSubpopulations(studyId: string)
      requires Valid()
      modifies this
      ensures Valid()
      ensures records == OtherStudyRecords(old(records), studyId)
    {
      OtherStudyRecordsKeepUnique(records, studyId);
      records := OtherStudyRecords(records, studyId);
    }
  }

  /** The loop of getSubpopulationForUser: the matching subpopulations, in order. */
  method CollectMatches(ctx: CriteriaContext, subpops: seq<Subpopulation>) returns (found: seq<Subpopulation>)
    ensures found == MatchesOf(ctx, subpops)
  {
    found := [];
    for i := 0 to |subpops|
      invariant found == MatchesOf(ctx, subpops[..i])
    {
      var matches := MatchCriteria(ctx, subpops[i].criteria);
      assert subpops[..i + 1][..i] == subpops[..i];
      if matches {
        found := found + [subpops[i]];
      }
    }
    assert subpops[..|subpops|] == subpops;
  }

  /** What getSubpopulations returns: the default group alone for a study without any physical
    * record when asked to create it; otherwise the study's records, without the deleted ones unless
    * asked, ordered by specificity. */
  function Listing(rs: seq<Subpopulation>, studyId: string, createDefault: bool, includeDeleted: bool,
                   rank: Subpopulation -> int): (r: seq<Subpopulation>)
    ensures SortedBy(r, rank)
    ensures forall x :: x in r ==> x.studyId == studyId && (includeDeleted || !x.deleted)
  {
    if createDefault && StudyRecords(rs, studyId) == [] then [DefaultSubpopulation(studyId)]
    else
      var sorted := Sort(Live(StudyRecords(rs, studyId), includeDeleted), rank);
      assert forall x :: x in sorted ==> x in multiset(sorted);
      sorted
  }

  /** Outside the default case the listing holds exactly the study's live records. */
  lemma ListingMembers(rs: seq<Subpopulation>, studyId: string, createDefault: bool, includeDeleted: bool,
                       rank: Subpopulation -> int)
    requires !(createDefault && StudyRecords(rs, studyId) == [])
    ensures forall x :: x in Listing(rs, studyId, createDefault, includeDeleted, rank) <==>
      x in rs && x.studyId == studyId && (includeDeleted || !x.deleted)
  {
    var live := Live(StudyRecords(rs, studyId), includeDeleted);
    var sorted := Sort(live, rank);
    forall x ensures x in sorted <==> x in live {
      assert x in sorted <==> x in multiset(sorted);
      assert x in live <==> x in multiset(live);
    }
  }

  /** The subpopulation chosen for a user: the head of the matches sorted by specificity. */
  function BestMatch(ctx: CriteriaContext, subs: seq<Subpopulation>, rank: Subpopulation -> int): (r: Option<Subpopulation>)
    ensures r.None? <==> forall x :: x in subs ==> !Matches(ctx, x.criteria)
    ensures r.Some? ==> r.value in subs && Matches(ctx, r.value.criteria)
    ensures r.Some? ==> forall x :: x in subs && Matches(ctx, x.criteria) ==> rank(r.value) <= rank(x)
  {
    var found := MatchesOf(ctx, subs);
    if found == [] then
      assert forall x :: x in subs ==> !Matches(ctx, x.criteria) by {
        forall x | x in subs ensures !Matches(ctx, x.criteria) {
          assert x !in found;
        }
      }
      None
    else
      var sorted := Sort(found, rank);
      LeastMatch(ctx, found, sorted, subs, rank);
      Some(sorted[0])
  }

  /** getSubpopulationForUser picks, among the study's undeleted groups, a matching one of least
    * rank, and nothing exactly when none matches. */
  lemma ForUserIsLeastLiveMatch(rs: seq<Subpopulation>, studyId: string, ctx: CriteriaContext, rank: Subpopulation -> int)
    requires StudyRecords(rs, studyId) != []
    ensures var r := BestMatch(ctx, Listing(rs, studyId, true, false, rank), rank);
      (r.None? <==> forall x :: x in rs && x.studyId == studyId && !x.deleted ==> !Matches(ctx, x.criteria)) &&
      (r.Some? ==> r.value in rs && r.value.studyId == studyId && !r.value.deleted && Matches(ctx, r.value.criteria)) &&
      (r.Some? ==> forall x :: x in rs && x.studyId == studyId && !x.deleted && Matches(ctx, x.criteria) ==>
        rank(r.value) <= rank(x))
  {
    ListingMembers(rs, studyId, true, false, rank);
  }

  /** A study without records gets the default group, which every user matches. */
  lemma {:induction false} NewStudyGetsDefault(rs: seq<Subpopulation>, studyId: string, ctx: CriteriaContext, rank: Subpopulation -> int)
    requires StudyRecords(rs, studyId) == []
    ensures BestMatch(ctx, Listing(rs, studyId, true, false, rank), rank) == Some(DefaultSubpopulation(studyId))
  {
    var d := DefaultSubpopulation(studyId);
    assert [d][..0] == [];
    assert MatchesOf(ctx, [d]) == [d];
    assert Sort([d], rank) == [d];
  }

  /** The head of the sorted matches is a match of least rank. */
  lemma LeastMatch(ctx: CriteriaContext, found: seq<Subpopulation>, sorted: seq<Subpopulation>, candidates: seq<Subpopulation>,
                   rank: Subpopulation -> int)
    requires found != [] && SortedBy(sorted, rank) && multiset(sorted) == multiset(found)
    requires forall x :: x in found <==> x in candidates && Matches(ctx, x.criteria)
    ensures sorted != [] && sorted[0] in candidates && Matches(ctx, sorted[0].criteria)
    ensures forall x :: x in candidates && Matches(ctx, x.criteria) ==> rank(sorted[0]) <= rank(x)
  {
    assert found[0] in multiset(sorted);
    assert sorted[0] in multiset(found);
    forall x | x in candidates && Matches(ctx, x.criteria)
      ensures rank(sorted[0]) <= rank(x)
    {
      assert x in multiset(found);
      assert x in multiset(sorted);
      SortedHeadIsLeast(sorted, rank, x);
    }
  }

  /** A deleted subpopulation stays in the table, flagged, and is hidden from the live listing. */
  lemma {:induction false} DeletedIsKeptButHidden(rs: seq<Subpopulation>, s: Subpopulation, studyId: string)
    requires s.studyId == studyId
    ensures var after := Saved(rs, s.(deleted := true));
      Lookup(after, s.studyId, s.guid) == Some(s.(deleted := true)) &&
      s.(deleted := true) in StudyRecords(after, studyId) &&
      s.(deleted := true) !in Live(StudyRecords(after, studyId), false)
  {
  }
}
