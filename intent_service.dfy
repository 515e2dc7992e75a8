/**
 * IntentService: a prospective participant's intent to take part is held in
 * a cache under (subpopulation, study, phone) until the account is created,
 * then turned into consents.
 */
module Intents {
  import opened Wrappers
  import opened Domain

  /** Intents are held for four hours. */
  const EXPIRATION_IN_SECONDS := 4 * 60 * 60
  /** The install-link key used when the client's OS has no link of its own. */
  const UNIVERSAL := "Universal"

  datatype IntentToParticipate = IntentToParticipate(
    studyId: string,
    subpopGuid: string,
    phone: Phone,
    osName: Option<string>,
    consentSignature: string,
    scope: string)

  datatype IntentKey = IntentKey(subpopGuid: string, studyId: string, phone: Phone)

  datatype CachedIntent = CachedIntent(intent: IntentToParticipate, ttlSeconds: int)

  datatype InstallLinkSms = InstallLinkSms(to: Phone, url: string)

  /** consentService.consentToResearch as recorded: subpopulation, participant, signature and sharing scope. */
  datatype ConsentRecord = ConsentRecord(subpopGuid: string, participantId: string, signature: string, scope: string)

  function KeysOf(guids: seq<string>, studyId: string, phone: Phone): set<IntentKey> {
    set i | 0 <= i < |guids| :: IntentKey(guids[i], studyId, phone)
  }

  /** The consents registration gives for the subpopulations in order: one per cached intent, the
    * first time its key comes up. */
  function ConsentsGiven(cache: map<IntentKey, CachedIntent>, studyId: string, phone: Phone, participantId: string,
                         guids: seq<string>): seq<ConsentRecord>
  {
    if guids == [] then []
    else
      var init := guids[..|guids| - 1];
      var key := IntentKey(guids[|guids| - 1], studyId, phone);
      ConsentsGiven(cache, studyId, phone, participantId, init) +
      (if key in cache && key !in KeysOf(init, studyId, phone)
       then [ConsentRecord(guids[|guids| - 1], participantId, cache[key].intent.consentSignature, cache[key].intent.scope)]
       else [])
  }

  /** Registration consents exactly when some subpopulation has a cached intent. */
  lemma {:induction false} ConsentsGivenNonEmptyIff(cache: map<IntentKey, CachedIntent>, studyId: string, phone: Phone,
                                                   participantId: string, guids: seq<string>)
    ensures ConsentsGiven(cache, studyId, phone, participantId, guids) != [] <==>
      exists i :: 0 <= i < |guids| && IntentKey(guids[i], studyId, phone) in cache
  {
    if guids != [] {
      var init := guids[..|guids| - 1];
      ConsentsGivenNonEmptyIff(cache, studyId, phone, participantId, init);
      var key := IntentKey(guids[|guids| - 1], studyId, phone);
      if key in cache && key in KeysOf(init, studyId, phone) {
        var j :| 0 <= j < |init| && IntentKey(init[j], studyId, phone) == key;
        assert guids[j] == init[j];
      }
      if exists i :: 0 <= i < |guids| && IntentKey(guids[i], studyId, phone) in cache {
        var i :| 0 <= i < |guids| && IntentKey(guids[i], studyId, phone) in cache;
        if i < |init| {
          assert init[i] == guids[i];
        }
      }
    }
  }

  class IntentService {
    var cache: map<IntentKey, CachedIntent>
    var outbox: seq<InstallLinkSms>
    var consents: seq<ConsentRecord>
    /** The participantService.getParticipant calls made. */
    var participantFetches: nat

    constructor ()
      ensures cache == map[] && outbox == [] && consents == [] && participantFetches == 0
    {
      cache, outbox, consents, participantFetches := map[], [], [], 0;
    }

    /** The link for the client's OS, else the universal link, else any link at all. */
    method GetInstallLink(osName: Option<string>, installLinks: map<string, string>) returns (link: Option<string>)
      ensures osName.Some? && osName.value in installLinks ==> link == Some(installLinks[osName.value])
      ensures !(osName.Some? && osName.value in installLinks) && UNIVERSAL in installLinks ==>
        link == Some(installLinks[UNIVERSAL])
      ensures link.Some? ==> link.value in installLinks.Values
      ensures link.None? <==> installLinks == map[]
    {
      link := None;
      if osName.Some? && osName.value in installLinks {
        link := Some(installLinks[osName.value]);
      }
      if link.None? && UNIVERSAL in installLinks {
        link := Some(installLinks[UNIVERSAL]);
      }
      if link.None? && installLinks != map[] {
        var k :| k in installLinks;
        link := Some(installLinks[k]);
      }
    }

    /** Ignored when an account already has the phone; otherwise the first intent for its key is kept
      * (and the install link texted), and later ones are dropped. */
    method SubmitIntentToParticipate(intent: IntentToParticipate, study: Study, subpopulationExists: bool,
                                     accounts: AccountId -> Option<Account>)
      returns (r: Result<(), BridgeError>)
      requires study.identifier == intent.studyId
      modifies this
      ensures consents == old(consents) && participantFetches == old(participantFetches)
      ensures accounts(ForPhone(intent.studyId, intent.phone)).Some? ==>
        r.Ok? && cache == old(cache) && outbox == old(outbox)
      ensures accounts(ForPhone(intent.studyId, intent.phone)).None? && !subpopulationExists ==>
        r == Err(EntityNotFound("Subpopulation")) && cache == old(cache) && outbox == old(outbox)
      ensures accounts(ForPhone(intent.studyId, intent.phone)).None? && subpopulationExists ==>
        var key := IntentKey(intent.subpopGuid, study.identifier, intent.phone);
        r.Ok? &&
        (key in old(cache) ==> cache == old(cache) && outbox == old(outbox)) &&
        (key !in old(cache) ==> (cache == old(cache)[key := CachedIntent(intent, EXPIRATION_IN_SECONDS)] &&
          (study.installLinks == map[] ==> outbox == old(outbox)) &&
          (study.installLinks != map[] ==> (|outbox| == |old(outbox)| + 1 && outbox[..|old(outbox)|] == old(outbox) &&
            outbox[|outbox| - 1].to == intent.phone && outbox[|outbox| - 1].url in study.installLinks.Values))))
    {
      if accounts(ForPhone(intent.studyId, intent.phone)).Some? {
        return Ok(());
      }
      if !subpopulationExists {
        return Err(EntityNotFound("Subpopulation"));
      }
      var key := IntentKey(intent.subpopGuid, study.identifier, intent.phone);
      if key !in cache {
        cache := cache[key := CachedIntent(intent, EXPIRATION_IN_SECONDS)];
        if study.installLinks != map[] {
          var url := GetInstallLink(intent.osName, study.installLinks);
          outbox := outbox + [InstallLinkSms(intent.phone, url.value)];
        }
      }
      return Ok(());
    }

    /** Consents the account to every subpopulation with a cached intent for its phone, removing
      * those intents; the participant is fetched once, when the first intent is found. */
    method RegisterIntentToParticipate(study: Study, account: Account, subpopGuids: seq<string>,
                                       fetchedParticipant: StudyParticipant)
      returns (consentsUpdated: bool)
      modifies this
      ensures outbox == old(outbox)
      ensures account.phone.None? ==>
        !consentsUpdated && cache == old(cache) && consents == old(consents) && participantFetches == old(participantFetches)
      ensures account.phone.Some? ==>
        var phone := account.phone.value;
        (consentsUpdated <==> exists i :: 0 <= i < |subpopGuids| && IntentKey(subpopGuids[i], study.identifier, phone) in old(cache)) &&
        cache == old(cache) - KeysOf(subpopGuids, study.identifier, phone) &&
        consents == old(consents) + ConsentsGiven(old(cache), study.identifier, phone, fetchedParticipant.id, subpopGuids) &&
        participantFetches == old(participantFetches) + (if consentsUpdated then 1 else 0)
    {
      if account.phone.None? {
        return false;
      }
      var phone := account.phone.value;
      consentsUpdated := false;
      var participant: Option<StudyParticipant> := None;
      for i := 0 to |subpopGuids|
        invariant cache == old(cache) - KeysOf(subpopGuids[..i], study.identifier, phone)
        invariant consents == old(consents) + ConsentsGiven(old(cache), study.identifier, phone, fetchedParticipant.id, subpopGuids[..i])
        invariant consentsUpdated <==> exists j :: 0 <= j < i && IntentKey(subpopGuids[j], study.identifier, phone) in old(cache)
        invariant participant.Some? <==> consentsUpdated
        invariant participant.Some? ==> participant.value == fetchedParticipant
        invariant participantFetches == old(participantFetches) + (if consentsUpdated then 1 else 0)
        invariant outbox == old(outbox)
      {
        var key := IntentKey(subpopGuids[i], study.identifier, phone);
        assert subpopGuids[..i + 1][..i] == subpopGuids[..i];
        assert KeysOf(subpopGuids[..i + 1], study.identifier, phone) == KeysOf(subpopGuids[..i], study.identifier, phone) + {key};
        if key in cache {
          if participant.None? {
            participant := Some(fetchedParticipant);
            participantFetches := participantFetches + 1;
          }
          var cached := cache[key].intent;
          consents := consents + [ConsentRecord(subpopGuids[i], participant.value.id, cached.consentSignature, cached.scope)];
          cache := cache - {key};
          consentsUpdated := true;
        }
      }
      assert subpopGuids[..|subpopGuids|] == subpopGuids;
    }
  }
}
