/**
 * CriteriaUtils: matching a request context against the criteria of an
 * object (app-version window per OS, required and prohibited data groups,
 * a language), and validating criteria when they are configured.
 */
module Criteria {
  import opened Wrappers
  import opened Text
  import opened Validation

  datatype ClientInfo = ClientInfo(appVersion: Option<int>, osName: Option<string>)

  /** A request context: the matcher reads the languages, client and data groups. */
  datatype CriteriaContext = CriteriaContext(
    languages: seq<string>,
    clientInfo: ClientInfo,
    userDataGroups: set<string>,
    healthCode: Option<string>,
    userId: Option<string>)

  /** Group collections keep the order in which the source iterates them. */
  datatype Criteria = Criteria(
    language: Option<string>,
    allOfGroups: seq<string>,
    noneOfGroups: seq<string>,
    minAppVersions: map<string, int>,
    maxAppVersions: map<string, int>)

  // ---------------------------------------------------------------------
  // Matching
  // ---------------------------------------------------------------------

  /** The version window is inclusive, and it is ignored unless both the app version and the OS are known. */
  predicate VersionAllowed(client: ClientInfo, c: Criteria) {
    client.appVersion.None? || client.osName.None? ||
    var v, os := client.appVersion.value, client.osName.value;
    (os in c.minAppVersions ==> c.minAppVersions[os] <= v) &&
    (os in c.maxAppVersions ==> v <= c.maxAppVersions[os])
  }

  predicate GroupsAllowed(userGroups: set<string>, c: Criteria) {
    (forall g :: g in c.allOfGroups ==> g in userGroups) &&
    (forall g :: g in c.noneOfGroups ==> g !in userGroups)
  }

  /** No target language, or some preferred language equals it ignoring case. */
  predicate LanguageAllowed(languages: seq<string>, target: Option<string>) {
    target.None? || exists i :: 0 <= i < |languages| && EqualsIgnoreCase(target.value, languages[i])
  }

  predicate Matches(ctx: CriteriaContext, c: Criteria) {
    VersionAllowed(ctx.clientInfo, c) &&
    GroupsAllowed(ctx.userDataGroups, c) &&
    LanguageAllowed(ctx.languages, c.language)
  }

  /** An early-exit search of the preferred languages for the target. */
  method LanguageDoesNotMatch(preferred: seq<string>, target: Option<string>) returns (r: bool)
    ensures r <==> !LanguageAllowed(preferred, target)
  {
    if target.None? {
      return false;
    }
    for i := 0 to |preferred|
      invariant forall j :: 0 <= j < i ==> !EqualsIgnoreCase(target.value, preferred[j])
    {
      if EqualsIgnoreCase(target.value, preferred[i]) {
        return false;
      }
    }
    return true;
  }

  method MatchCriteria(ctx: CriteriaContext, c: Criteria) returns (r: bool)
    ensures r <==> Matches(ctx, c)
  {
    var appVersion, appOs := ctx.clientInfo.appVersion, ctx.clientInfo.osName;
    if appVersion.Some? && appOs.Some? {
      var minV := if appOs.value in c.minAppVersions then Some(c.minAppVersions[appOs.value]) else None;
      var maxV := if appOs.value in c.maxAppVersions then Some(c.maxAppVersions[appOs.value]) else None;
      if (minV.Some? && appVersion.value < minV.value) || (maxV.Some? && appVersion.value > maxV.value) {
        return false;
      }
    }
    var dataGroups := ctx.userDataGroups;
    if !(forall g :: g in c.allOfGroups ==> g in dataGroups) {
      return false;
    }
    if exists g :: g in c.noneOfGroups && g in dataGroups {
      return false;
    }
    var noMatch := LanguageDoesNotMatch(ctx.languages, c.language);
    if noMatch {
      return false;
    }
    return true;
  }

  /** A group both required and prohibited makes the criteria unmatchable. */
  lemma RequiredAndProhibitedNeverMatches(ctx: CriteriaContext, c: Criteria, g: string)
    requires g in c.allOfGroups && g in c.noneOfGroups
    ensures !Matches(ctx, c)
  {
  }

  /** A window with its maximum below its minimum excludes every request that reports that OS and a version. */
  lemma InvertedWindowNeverMatches(ctx: CriteriaContext, c: Criteria)
    requires ctx.clientInfo.appVersion.Some? && ctx.clientInfo.osName.Some?
    requires ctx.clientInfo.osName.value in c.minAppVersions && ctx.clientInfo.osName.value in c.maxAppVersions
    requires c.maxAppVersions[ctx.clientInfo.osName.value] < c.minAppVersions[ctx.clientInfo.osName.value]
    ensures !Matches(ctx, c)
  {
  }

  // ---------------------------------------------------------------------
  // Validation
  // ---------------------------------------------------------------------

  /** The elements of groups that are not in vocabulary, in order. */
  function Missing(groups: seq<string>, vocabulary: seq<string>): (r: seq<string>)
    ensures forall x :: x in r <==> x in groups && x !in vocabulary
    ensures |r| <= |groups|
  {
    if groups == [] then []
    else (if groups[0] in vocabulary then [] else [groups[0]]) + Missing(groups[1..], vocabulary)
  }

  /** The elements of a that are also in b, in the order of a (Guava's Sets.intersection view). */
  function Common(a: seq<string>, b: seq<string>): (r: seq<string>)
    ensures forall x :: x in r <==> x in a && x in b
    ensures |r| <= |a|
  {
    if a == [] then []
    else (if a[0] in b then [a[0]] else []) + Common(a[1..], b)
  }

  function NotInEnumeration(identifier: string, vocabulary: seq<string>): string {
    "'" + identifier + "' is not in enumeration: " +
    (if vocabulary == [] then "<no data groups declared>" else Join(vocabulary, ", "))
  }

  function NotInEnumerationAll(ids: seq<string>, vocabulary: seq<string>): (r: seq<string>)
    ensures |r| == |ids|
    ensures forall i :: 0 <= i < |ids| ==> r[i] == NotInEnumeration(ids[i], vocabulary)
  {
    if ids == [] then [] else [NotInEnumeration(ids[0], vocabulary)] + NotInEnumerationAll(ids[1..], vocabulary)
  }

  /** The messages validateDataGroups produces for one criteria group collection. */
  function DataGroupMessages(vocabulary: seq<string>, groups: Option<seq<string>>): (r: seq<string>)
    ensures groups.None? ==> r == ["cannot be null"]
    ensures groups.Some? ==> (r == [] <==> forall g :: g in groups.value ==> g in vocabulary)
    ensures groups.Some? ==> |r| <= |groups.value|
  {
    match groups
    case None => ["cannot be null"]
    case Some(gs) =>
      var missing := Missing(gs, vocabulary);
      assert missing != [] ==> missing[0] in missing;
      NotInEnumerationAll(missing, vocabulary)
  }

  /** The public validateDataGroups: one message per criteria group missing from the vocabulary. */
  method ValidateDataGroups(vocabulary: seq<string>, groups: Option<seq<string>>) returns (list: seq<string>)
    ensures list == DataGroupMessages(vocabulary, groups)
  {
    list := [];
    if groups.None? {
      list := list + ["cannot be null"];
    } else {
      var gs := groups.value;
      for i := 0 to |gs|
        invariant list == NotInEnumerationAll(Missing(gs[..i], vocabulary), vocabulary)
      {
        MissingAppend(gs[..i], gs[i], vocabulary);
        assert gs[..i + 1] == gs[..i] + [gs[i]];
        if gs[i] !in vocabulary {
          NotInEnumerationAllAppend(Missing(gs[..i], vocabulary), gs[i], vocabulary);
          list := list + [NotInEnumeration(gs[i], vocabulary)];
        }
      }
      assert gs[..|gs|] == gs;
    }
  }

  lemma {:induction false} MissingAppend(gs: seq<string>, g: string, vocabulary: seq<string>)
    ensures Missing(gs + [g], vocabulary) == Missing(gs, vocabulary) + (if g in vocabulary then [] else [g])
  {
    if gs == [] {
      assert gs + [g] == [g];
    } else {
      assert (gs + [g])[1..] == gs[1..] + [g];
      MissingAppend(gs[1..], g, vocabulary);
    }
  }

  lemma NotInEnumerationAllAppend(ids: seq<string>, id: string, vocabulary: seq<string>)
    ensures NotInEnumerationAll(ids + [id], vocabulary) == NotInEnumerationAll(ids, vocabulary) + [NotInEnumeration(id, vocabulary)]
  {
    var l, rr := NotInEnumerationAll(ids + [id], vocabulary), NotInEnumerationAll(ids, vocabulary) + [NotInEnumeration(id, vocabulary)];
    assert |l| == |rr|;
    forall i | 0 <= i < |l| ensures l[i] == rr[i] {
      if i < |ids| { assert (ids + [id])[i] == ids[i]; }
    }
  }

  /** The public validateDataGroupNotRequiredAndProhibited: a message naming the groups both required and prohibited. */
  function RequiredAndProhibitedMessage(allOf: Option<seq<string>>, noneOf: Option<seq<string>>): (r: Option<string>)
    ensures r.None? <==> allOf.None? || noneOf.None? || forall g :: g in allOf.value ==> g !in noneOf.value
    ensures r.Some? ==> StartsWith(r.value, "includes these excluded data groups: ")
  {
    if allOf.Some? && noneOf.Some? then
      var intersection := Common(allOf.value, noneOf.value);
      assert intersection != [] ==> intersection[0] in intersection;
      if intersection != [] then
        Some("includes these excluded data groups: " + Join(intersection, ", "))
      else None
    else None
  }

  /** The OS names getAppVersionOperatingSystems yields: each key of either map, once. */
  predicate IsOsList(c: Criteria, osNames: seq<string>) {
    (forall o :: o in osNames ==> o in c.minAppVersions || o in c.maxAppVersions) &&
    (forall o :: o in c.minAppVersions ==> o in osNames) &&
    (forall o :: o in c.maxAppVersions ==> o in osNames) &&
    (forall i, j :: 0 <= i < j < |osNames| ==> osNames[i] != osNames[j])
  }

  /** The errors for one OS, under nested path p, with errorKey the OS's error key. */
  function VersionErrors(p: string, c: Criteria, os: string, errorKey: string): (r: seq<FieldError>)
    ensures r == [] <==>
      (os in c.minAppVersions ==> c.minAppVersions[os] >= 0) &&
      (os in c.maxAppVersions ==> c.maxAppVersions[os] >= 0) &&
      (os in c.minAppVersions && os in c.maxAppVersions ==> c.minAppVersions[os] <= c.maxAppVersions[os])
  {
    var minV := if os in c.minAppVersions then Some(c.minAppVersions[os]) else None;
    var maxV := if os in c.maxAppVersions then Some(c.maxAppVersions[os]) else None;
    (if minV.Some? && maxV.Some? && maxV.value < minV.value
     then [SubpathRejection(p, "maxAppVersions", errorKey, "cannot be less than minAppVersions." + errorKey)] else []) +
    (if minV.Some? && minV.value < 0 then [SubpathRejection(p, "minAppVersions", errorKey, "cannot be negative")] else []) +
    (if maxV.Some? && maxV.value < 0 then [SubpathRejection(p, "maxAppVersions", errorKey, "cannot be negative")] else [])
  }

  predicate VersionsWellFormed(c: Criteria, os: string) {
    (os in c.minAppVersions ==> c.minAppVersions[os] >= 0) &&
    (os in c.maxAppVersions ==> c.maxAppVersions[os] >= 0) &&
    (os in c.minAppVersions && os in c.maxAppVersions ==> c.minAppVersions[os] <= c.maxAppVersions[os])
  }

  /** The version errors of the OS names in order. */
  function AllVersionErrors(p: string, c: Criteria, osNames: seq<string>, errorKey: string -> string): (r: seq<FieldError>)
    ensures r == [] <==> forall i :: 0 <= i < |osNames| ==> VersionsWellFormed(c, osNames[i])
  {
    if osNames == [] then []
    else
      var rest := AllVersionErrors(p, c, osNames[..|osNames| - 1], errorKey);
      var last := osNames[|osNames| - 1];
      assert forall i :: 0 <= i < |osNames| - 1 ==> osNames[..|osNames| - 1][i] == osNames[i];
      rest + VersionErrors(p, c, last, errorKey(last))
  }

  function Rejections(p: string, field: string, messages: seq<string>): (r: seq<FieldError>)
    ensures |r| == |messages|
    ensures forall i :: 0 <= i < |r| ==> r[i] == Rejection(p, field, messages[i])
  {
    if messages == [] then []
    else Rejections(p, field, messages[..|messages| - 1]) + [Rejection(p, field, messages[|messages| - 1])]
  }

  /** Every error validate records for criteria c, under nested path p. */
  function CriteriaErrors(p: string, c: Criteria, vocabulary: seq<string>, osNames: seq<string>,
                          errorKey: string -> string): seq<FieldError>
  {
    var notBoth := RequiredAndProhibitedMessage(Some(c.allOfGroups), Some(c.noneOfGroups));
    AllVersionErrors(p, c, osNames, errorKey) +
    Rejections(p, "allOfGroups", DataGroupMessages(vocabulary, Some(c.allOfGroups))) +
    Rejections(p, "noneOfGroups", DataGroupMessages(vocabulary, Some(c.noneOfGroups))) +
    (if notBoth.Some? then [Rejection(p, "allOfGroups", notBoth.value)] else [])
  }

  /** Criteria that validate accepts: every window sound and non-negative, every group declared, none both required and prohibited. */
  predicate WellFormed(c: Criteria, vocabulary: seq<string>) {
    (forall o :: o in c.minAppVersions ==> c.minAppVersions[o] >= 0) &&
    (forall o :: o in c.maxAppVersions ==> c.maxAppVersions[o] >= 0) &&
    (forall o :: o in c.minAppVersions && o in c.maxAppVersions ==> c.minAppVersions[o] <= c.maxAppVersions[o]) &&
    (forall g :: g in c.allOfGroups ==> g in vocabulary) &&
    (forall g :: g in c.noneOfGroups ==> g in vocabulary) &&
    (forall g :: g in c.allOfGroups ==> g !in c.noneOfGroups)
  }

  /** The per-OS checks over a complete OS list are the checks over both maps. */
  lemma VersionsWellFormedIff(c: Criteria, osNames: seq<string>)
    requires IsOsList(c, osNames)
    ensures (forall i :: 0 <= i < |osNames| ==> VersionsWellFormed(c, osNames[i])) <==>
      (forall o :: o in c.minAppVersions ==> c.minAppVersions[o] >= 0) &&
      (forall o :: o in c.maxAppVersions ==> c.maxAppVersions[o] >= 0) &&
      (forall o :: o in c.minAppVersions && o in c.maxAppVersions ==> c.minAppVersions[o] <= c.maxAppVersions[o])
  {
    if forall i :: 0 <= i < |osNames| ==> VersionsWellFormed(c, osNames[i]) {
      forall o | o in c.minAppVersions || o in c.maxAppVersions ensures VersionsWellFormed(c, o) {
        var i :| 0 <= i < |osNames| && osNames[i] == o;
      }
    }
  }

  /** validate records no error exactly when the criteria are well formed. */
  lemma CriteriaErrorsEmptyIff(p: string, c: Criteria, vocabulary: seq<string>, osNames: seq<string>,
                               errorKey: string -> string)
    requires IsOsList(c, osNames)
    ensures CriteriaErrors(p, c, vocabulary, osNames, errorKey) == [] <==> WellFormed(c, vocabulary)
  {
    var versions := AllVersionErrors(p, c, osNames, errorKey);
    var allOf := Rejections(p, "allOfGroups", DataGroupMessages(vocabulary, Some(c.allOfGroups)));
    var noneOf := Rejections(p, "noneOfGroups", DataGroupMessages(vocabulary, Some(c.noneOfGroups)));
    var notBoth := RequiredAndProhibitedMessage(Some(c.allOfGroups), Some(c.noneOfGroups));
    var last: seq<FieldError> := if notBoth.Some? then [Rejection(p, "allOfGroups", notBoth.value)] else [];
    assert CriteriaErrors(p, c, vocabulary, osNames, errorKey) == versions + allOf + noneOf + last;
    assert |versions + allOf + noneOf + last| == |versions| + |allOf| + |noneOf| + |last|;
    VersionsWellFormedIff(c, osNames);
  }

  method Validate(c: Criteria, vocabulary: seq<string>, osNames: seq<string>, errorKey: string -> string, errors: Errors)
    requires IsOsList(c, osNames)
    modifies errors
    ensures errors.errors == old(errors.errors) + CriteriaErrors(old(errors.nestedPath), c, vocabulary, osNames, errorKey)
    ensures errors.nestedPath == old(errors.nestedPath) && errors.stack == old(errors.stack)
  {
    ghost var p, e := errors.nestedPath, errors.errors;
    RejectAllVersionErrors(errors, c, osNames, errorKey);
    ghost var versions := AllVersionErrors(p, c, osNames, errorKey);
    RejectDataGroups(errors, vocabulary, Some(c.allOfGroups), "allOfGroups");
    ghost var allOf := Rejections(p, "allOfGroups", DataGroupMessages(vocabulary, Some(c.allOfGroups)));
    RejectDataGroups(errors, vocabulary, Some(c.noneOfGroups), "noneOfGroups");
    ghost var noneOf := Rejections(p, "noneOfGroups", DataGroupMessages(vocabulary, Some(c.noneOfGroups)));
    assert errors.errors == e + versions + allOf + noneOf;
    var message := RequiredAndProhibitedMessage(Some(c.allOfGroups), Some(c.noneOfGroups));
    if message.Some? {
      errors.RejectValue("allOfGroups", message.value);
    }
    ghost var last: seq<FieldError> := if message.Some? then [Rejection(p, "allOfGroups", message.value)] else [];
    assert errors.errors == e + versions + allOf + noneOf + last;
    assert CriteriaErrors(p, c, vocabulary, osNames, errorKey) == versions + allOf + noneOf + last;
    ConcatAssoc(e, versions, allOf, noneOf, last);
  }

  lemma ConcatAssoc<T>(a: seq<T>, b: seq<T>, c: seq<T>, d: seq<T>, e: seq<T>)
    ensures a + b + c + d + e == a + (b + c + d + e)
  {
  }

  /** The private validateDataGroups: each message rejected under the property name. */
  method RejectDataGroups(errors: Errors, vocabulary: seq<string>, groups: Option<seq<string>>, propName: string)
    modifies errors
    ensures errors.errors == old(errors.errors) + Rejections(old(errors.nestedPath), propName, DataGroupMessages(vocabulary, groups))
    ensures errors.nestedPath == old(errors.nestedPath) && errors.stack == old(errors.stack)
  {
    var messages := ValidateDataGroups(vocabulary, groups);
    ghost var p, e := errors.nestedPath, errors.errors;
    assert errors.errors == e + [];
    for i := 0 to |messages|
      invariant errors.errors == e + Rejections(p, propName, messages[..i])
      invariant errors.nestedPath == p && errors.stack == old(errors.stack)
    {
      RejectMessage(errors, propName, messages, i, e);
    }
    assert messages[..|messages|] == messages;
  }

  /** One pass of validateDataGroups' caller loop: message i is rejected under the property name. */
  method RejectMessage(errors: Errors, propName: string, messages: seq<string>, i: nat, ghost e: seq<FieldError>)
    requires i < |messages|
    requires errors.errors == e + Rejections(errors.nestedPath, propName, messages[..i])
    modifies errors
    ensures errors.errors == e + Rejections(old(errors.nestedPath), propName, messages[..i + 1])
    ensures errors.nestedPath == old(errors.nestedPath) && errors.stack == old(errors.stack)
  {
    ghost var p := errors.nestedPath;
    ghost var done := Rejections(p, propName, messages[..i]);
    errors.RejectValue(propName, messages[i]);
    RejectionsStep(p, propName, messages[..i], messages[i]);
    assert messages[..i + 1] == messages[..i] + [messages[i]];
    AppendAssoc(e, done, [Rejection(p, propName, messages[i])]);
  }

  lemma RejectionsStep(p: string, field: string, messages: seq<string>, m: string)
    ensures Rejections(p, field, messages + [m]) == Rejections(p, field, messages) + [Rejection(p, field, m)]
  {
    assert (messages + [m])[..|messages|] == messages;
  }

  /** validate's loop over the OS names. */
  method RejectAllVersionErrors(errors: Errors, c: Criteria, osNames: seq<string>, errorKey: string -> string)
    modifies errors
    ensures errors.errors == old(errors.errors) + AllVersionErrors(old(errors.nestedPath), c, osNames, errorKey)
    ensures errors.nestedPath == old(errors.nestedPath) && errors.stack == old(errors.stack)
  {
    ghost var p, e := errors.nestedPath, errors.errors;
    assert errors.errors == e + [];
    for i := 0 to |osNames|
      invariant errors.errors == e + AllVersionErrors(p, c, osNames[..i], errorKey)
      invariant errors.nestedPath == p && errors.stack == old(errors.stack)
    {
      RejectVersionPass(errors, c, osNames, i, errorKey, e);
    }
    assert osNames[..|osNames|] == osNames;
  }

  /** One pass of validate's loop over the OS names. */
  method RejectVersionPass(errors: Errors, c: Criteria, osNames: seq<string>, i: nat, errorKey: string -> string,
                           ghost e: seq<FieldError>)
    requires i < |osNames|
    requires errors.errors == e + AllVersionErrors(errors.nestedPath, c, osNames[..i], errorKey)
    modifies errors
    ensures errors.errors == e + AllVersionErrors(old(errors.nestedPath), c, osNames[..i + 1], errorKey)
    ensures errors.nestedPath == old(errors.nestedPath) && errors.stack == old(errors.stack)
  {
    ghost var p := errors.nestedPath;
    ghost var done := AllVersionErrors(p, c, osNames[..i], errorKey);
    RejectVersionErrors(errors, c, osNames[i], errorKey(osNames[i]));
    assert osNames[..i + 1][..i] == osNames[..i];
    assert AllVersionErrors(p, c, osNames[..i + 1], errorKey) == done + VersionErrors(p, c, osNames[i], errorKey(osNames[i]));
    AppendAssoc(e, done, VersionErrors(p, c, osNames[i], errorKey(osNames[i])));
  }

  /** The three per-OS checks of validate's loop. */
  method RejectVersionErrors(errors: Errors, c: Criteria, osName: string, key: string)
    modifies errors
    ensures errors.errors == old(errors.errors) + VersionErrors(old(errors.nestedPath), c, osName, key)
    ensures errors.nestedPath == old(errors.nestedPath) && errors.stack == old(errors.stack)
  {
    var minV := if osName in c.minAppVersions then Some(c.minAppVersions[osName]) else None;
    var maxV := if osName in c.maxAppVersions then Some(c.maxAppVersions[osName]) else None;
    if minV.Some? && maxV.Some? && maxV.value < minV.value {
      errors.RejectUnder("maxAppVersions", key, "cannot be less than minAppVersions." + key);
    }
    if minV.Some? && minV.value < 0 {
      errors.RejectUnder("minAppVersions", key, "cannot be negative");
    }
    if maxV.Some? && maxV.value < 0 {
      errors.RejectUnder("maxAppVersions", key, "cannot be negative");
    }
  }
}
