/** The peer skill-exchange board (`PeerSkillViewModel`): posting a request
    for help, offering help on someone else's request, resolving one's own
    request, and the list of open requests.

    The `skillRequests` and `users` collections are maps from document id
    to record. The signed-in account's uid, listener snapshots and the
    outcome of each store call are parameters. */
module PeerSkill {
  import opened Kotlin
  import opened Data
  import opened Firestore

  const Open: string := "OPEN"
  const Resolved: string := "RESOLVED"

  /** The filter `whereEqualTo("status", "OPEN")`. */
  function IsOpen(r: SkillRequest): bool {
    r.status == Open
  }

  /** The key of `orderBy("timestamp", DESCENDING)`. */
  function RequestTime(r: SkillRequest): int {
    TimeKey(r.timestamp)
  }

  /** The listed requests: the open ones among the documents, newest first. */
  function OpenRequests(docs: seq<SkillRequest>): (r: seq<SkillRequest>)
    ensures |r| <= |docs|
  {
    OrderDescending(Filter(docs, IsOpen), RequestTime)
  }

  /** The list holds exactly the open documents, each as often as it is
      stored, newest first; so a resolved request is never listed. */
  lemma OpenRequestsSpec(docs: seq<SkillRequest>)
    ensures forall x :: multiset(OpenRequests(docs))[x] == (if x.status == Open then multiset(docs)[x] else 0)
    ensures forall x :: x in OpenRequests(docs) <==> x in docs && x.status == Open
    ensures forall x :: x in OpenRequests(docs) ==> x.status != Resolved
    ensures DescendingBy(OpenRequests(docs), RequestTime)
  {
    var open := Filter(docs, IsOpen);
    FilterCounts(docs, IsOpen);
    FilterMembers(docs, IsOpen);
    SameElements(OpenRequests(docs), open);
  }

  /** A new request for help, posted by the profile's owner. */
  function NewRequest(profile: User, skillName: string, description: string, preferredTimes: string,
                      requestId: string, now: nat): (r: SkillRequest)
    ensures r.status == Open && r.offers == []
    ensures r.postedByUid == profile.uid && r.postedByName == profile.fullName
    ensures r.postedBySapId == profile.specializedId
    ensures r.requestId == requestId && r.skillName == skillName && r.description == description
    ensures r.preferredTimeSlots == preferredTimes && r.timestamp == Some(now)
  {
    SkillRequest(requestId := requestId, skillName := skillName, description := description,
                 postedByUid := profile.uid, postedByName := profile.fullName,
                 postedBySapId := profile.specializedId, status := Open,
                 preferredTimeSlots := preferredTimes, offers := [], timestamp := Some(now))
  }

  /** A freshly posted request is listed. */
  lemma NewRequestListed(profile: User, skillName: string, description: string, preferredTimes: string,
                         requestId: string, now: nat, others: seq<SkillRequest>)
    ensures NewRequest(profile, skillName, description, preferredTimes, requestId, now)
      in OpenRequests(others + [NewRequest(profile, skillName, description, preferredTimes, requestId, now)])
  {
    OpenRequestsSpec(others + [NewRequest(profile, skillName, description, preferredTimes, requestId, now)]);
  }

  /** The offer a helper makes. */
  function OfferOf(helper: User): HelperOffer {
    HelperOffer(helperUid := helper.uid, helperName := helper.fullName,
                helperContactEmail := helper.contactEmail)
  }

  /** The stored request after `arrayUnion(offer)` on its `offers`. */
  function WithOffer(stored: SkillRequest, helper: User): (r: SkillRequest)
    ensures r.(offers := stored.offers) == stored
  {
    stored.(offers := ArrayUnion(stored.offers, OfferOf(helper)))
  }

  /** After an offer, the helper's offer is present exactly once among
      duplicate-free offers, and the earlier offers keep their order in
      front of it. */
  lemma WithOfferSpec(stored: SkillRequest, helper: User)
    requires NoDuplicates(stored.offers)
    ensures var r := WithOffer(stored, helper);
      && OfferOf(helper) in r.offers
      && NoDuplicates(r.offers)
      && |stored.offers| <= |r.offers| <= |stored.offers| + 1
      && r.offers[..|stored.offers|] == stored.offers
      && (OfferOf(helper) !in stored.offers ==> r.offers == stored.offers + [OfferOf(helper)])
  {
    ArrayUnionNoDuplicates(stored.offers, OfferOf(helper));
  }

  /** Offering twice with the same helper data is offering once. */
  lemma WithOfferIdempotent(stored: SkillRequest, helper: User)
    ensures WithOffer(WithOffer(stored, helper), helper) == WithOffer(stored, helper)
  {
    ArrayUnionIdempotent(stored.offers, OfferOf(helper));
  }

  /** Offers are compared as whole values: a helper whose name changed
      between two offers is listed twice. */
  lemma SameHelperOffersTwice(stored: SkillRequest, before: User, after: User)
    requires stored.offers == [] && before.uid == after.uid && before.fullName != after.fullName
    ensures var r := WithOffer(WithOffer(stored, before), after);
      |r.offers| == 2 && r.offers[0].helperUid == r.offers[1].helperUid
  {
    assert OfferOf(before) != OfferOf(after);
  }

  /** No offer on a request comes from its poster. */
  ghost predicate NoSelfOffer(r: SkillRequest) {
    forall i :: 0 <= i < |r.offers| ==> r.offers[i].helperUid != r.postedByUid
  }

  /** An accepted offer, by someone other than the poster, keeps a request
      free of offers by its poster. */
  lemma WithOfferNoSelfOffer(stored: SkillRequest, helper: User)
    requires NoSelfOffer(stored) && helper.uid != stored.postedByUid
    ensures NoSelfOffer(WithOffer(stored, helper))
  {
  }

  class PeerSkillViewModel {
    var skillRequests: seq<SkillRequest>
    var isLoading: bool
    /** The `skillRequests` collection. */
    var requests: map<string, SkillRequest>
    /** The `users` collection. */
    var users: map<string, User>

    /** A fresh `PeerSkillState()`; `init` starts the listener. */
    constructor (requests: map<string, SkillRequest>, users: map<string, User>)
      ensures skillRequests == [] && isLoading
      ensures this.requests == requests && this.users == users
    {
      skillRequests := [];
      isLoading := true;
      this.requests := requests;
      this.users := users;
    }

    /** The listener of `fetchSkillRequests`, given the documents of the
        collection: an error keeps the list, a missing snapshot empties it. */
    method OnRequestsEvent(event: ListenerEvent<SkillRequest>)
      modifies this`skillRequests, this`isLoading
      ensures !isLoading
      ensures event.ListenError? ==> skillRequests == old(skillRequests)
      ensures event.NoSnapshot? ==> skillRequests == []
      ensures event.Snapshot? ==> skillRequests == OpenRequests(event.docs)
    {
      if event.ListenError? {
        isLoading := false;
        return;
      }
      var listed := if event.Snapshot? then OpenRequests(event.docs) else [];
      skillRequests := listed;
      isLoading := false;
    }

    /** `createSkillRequest`: `signedInUid` is the signed-in account, if
        any; `profileRead` whether reading its profile succeeded; `requestId`
        the id the store generated; `written` whether storing the request
        succeeded. Returns the value given to `onComplete`. */
    method CreateSkillRequest(signedInUid: Option<string>, skillName: string, description: string,
                              preferredTimes: string, profileRead: bool, requestId: string, now: nat,
                              written: bool) returns (completed: bool)
      modifies this`requests
      ensures signedInUid.None? ==> !completed && requests == old(requests)
      ensures signedInUid.Some? && (!profileRead || signedInUid.value !in users) ==>
        !completed && requests == old(requests)
      ensures signedInUid.Some? && profileRead && signedInUid.value in users ==>
        completed == written
        && requests == if written
                       then old(requests)[requestId := NewRequest(users[signedInUid.value], skillName,
                                                                  description, preferredTimes, requestId, now)]
                       else old(requests)
    {
      if signedInUid.None? {
        return false;
      }
      var userProfile: Option<User> := None;
      if profileRead && signedInUid.value in users {
        userProfile := Some(users[signedInUid.value]);
      }
      if userProfile.None? {
        return false;
      }
      var newRequest := NewRequest(userProfile.value, skillName, description, preferredTimes, requestId, now);
      if written {
        requests := requests[requestId := newRequest];
        completed := true;
      } else {
        completed := false;
      }
    }

    /** `offerHelp(request, helper)`: refused on the helper's own request
        (judged from the caller's copy); otherwise the helper's offer is
        added to the stored request. A request that is not stored (the
        empty id names none) is not updated. */
    method OfferHelp(request: SkillRequest, helper: User)
      modifies this`requests
      ensures request.postedByUid == helper.uid || request.requestId !in old(requests) ==>
        requests == old(requests)
      ensures request.postedByUid != helper.uid && request.requestId in old(requests) ==>
        requests == old(requests)[request.requestId := WithOffer(old(requests)[request.requestId], helper)]
    {
      if request.postedByUid == helper.uid {
        return;
      }
      if request.requestId in requests {
        var stored := requests[request.requestId];
        requests := requests[request.requestId := stored.(offers := ArrayUnion(stored.offers, OfferOf(helper)))];
      }
    }

    /** `markAsResolved(request)`: only the poster, signed in, may resolve. */
    method MarkAsResolved(request: SkillRequest, signedInUid: Option<string>)
      modifies this`requests
      ensures signedInUid != Some(request.postedByUid) || request.requestId !in old(requests) ==>
        requests == old(requests)
      ensures signedInUid == Some(request.postedByUid) && request.requestId in old(requests) ==>
        requests == old(requests)[request.requestId := old(requests)[request.requestId].(status := Resolved)]
    {
      if signedInUid != Some(request.postedByUid) {
        return;
      }
      if request.requestId in requests {
        var stored := requests[request.requestId];
        requests := requests[request.requestId := stored.(status := Resolved)];
      }
    }
  }
}
