/** The lost-and-found moderation screen (`LostAndFoundAdminViewModel`):
    one listener on every reported item splits them by status into three
    lists, and the moderator moves items between statuses.

    The `lostAndFoundItems` collection is a map from document id to item.
    A listener's snapshot and whether a store update succeeded are
    parameters. */
module LostFoundAdmin {
  import opened Kotlin
  import opened Data
  import opened Firestore

  const OpenStatus: string := "open"
  const VerifiedStatus: string := "verified"
  const ClaimPendingStatus: string := "claim_pending"
  const ResolvedStatus: string := "resolved"
  /** The status a newly reported item carries by default. */
  const PendingReviewStatus: string := "PENDING_REVIEW"

  /** The three statuses that are listed. */
  const ListedStatuses: set<string> := {OpenStatus, VerifiedStatus, ClaimPendingStatus}

  /** The filter `it.status == status`. */
  function HasStatus(status: string): LostFoundItem -> bool {
    (x: LostFoundItem) => x.status == status
  }

  /** The key of `sortedByDescending { it.timestamp }`. */
  function ItemTime(x: LostFoundItem): int {
    TimeKey(x.timestamp)
  }

  /** `allItems.filter { it.status == status }.sortedByDescending { it.timestamp }`. */
  function ByStatus(allItems: seq<LostFoundItem>, status: string): (r: seq<LostFoundItem>)
    ensures |r| <= |allItems|
  {
    SortedByDescending(Filter(allItems, HasStatus(status)), ItemTime)
  }

  /** A list is a permutation of the items with its status. */
  lemma ByStatusMembers(allItems: seq<LostFoundItem>, status: string)
    ensures forall x :: multiset(ByStatus(allItems, status))[x] == (if x.status == status then multiset(allItems)[x] else 0)
    ensures forall x :: x in ByStatus(allItems, status) <==> x in allItems && x.status == status
  {
    var f := Filter(allItems, HasStatus(status));
    var r := ByStatus(allItems, status);
    assert multiset(r) == multiset(f);
    FilterCounts(allItems, HasStatus(status));
    FilterMembers(allItems, HasStatus(status));
    SameElements(r, f);
  }

  /** A list is ordered newest first, items without a timestamp last. */
  lemma ByStatusOrder(allItems: seq<LostFoundItem>, status: string)
    ensures DescendingBy(ByStatus(allItems, status), ItemTime)
    ensures var r := ByStatus(allItems, status);
      forall i, j :: 0 <= i < j < |r| && r[i].timestamp.None? ==> r[j].timestamp.None?
  {
    NullsLast(ByStatus(allItems, status));
  }

  lemma NullsLast(r: seq<LostFoundItem>)
    requires DescendingBy(r, ItemTime)
    ensures forall i, j :: 0 <= i < j < |r| && r[i].timestamp.None? ==> r[j].timestamp.None?
  {
    forall i, j | 0 <= i < j < |r| && r[i].timestamp.None? ensures r[j].timestamp.None? {
      assert ItemTime(r[j]) <= ItemTime(r[i]);
    }
  }

  /** No item is in two of the lists, and an item whose status is none of
      the three (resolved, rejected, awaiting review) is in none. */
  lemma ListsDisjoint(allItems: seq<LostFoundItem>, x: LostFoundItem)
    ensures !(x in ByStatus(allItems, OpenStatus) && x in ByStatus(allItems, VerifiedStatus))
    ensures !(x in ByStatus(allItems, OpenStatus) && x in ByStatus(allItems, ClaimPendingStatus))
    ensures !(x in ByStatus(allItems, VerifiedStatus) && x in ByStatus(allItems, ClaimPendingStatus))
    ensures x.status !in ListedStatuses ==>
      x !in ByStatus(allItems, OpenStatus) && x !in ByStatus(allItems, VerifiedStatus)
      && x !in ByStatus(allItems, ClaimPendingStatus)
  {
    ByStatusMembers(allItems, OpenStatus);
    ByStatusMembers(allItems, VerifiedStatus);
    ByStatusMembers(allItems, ClaimPendingStatus);
  }

  /** An item that is resolved, rejected or still awaiting review appears
      in none of the three moderation lists. */
  lemma UnlistedItems(allItems: seq<LostFoundItem>, x: LostFoundItem)
    requires x.status in {ResolvedStatus, PendingReviewStatus, "rejected"}
    ensures x !in ByStatus(allItems, OpenStatus) && x !in ByStatus(allItems, VerifiedStatus)
      && x !in ByStatus(allItems, ClaimPendingStatus)
  {
    assert x.status !in ListedStatuses by {
      assert x.status[0] in {'r', 'P'};
    }
    ListsDisjoint(allItems, x);
  }

  /** The stored item after `updateItemStatus(id, newStatus)`. */
  function WithStatus(x: LostFoundItem, newStatus: string): (r: LostFoundItem)
    ensures r.status == newStatus && r.(status := x.status) == x
  {
    x.(status := newStatus)
  }

  /** The stored item after `denyClaim(id)`. */
  function ClaimDenied(x: LostFoundItem): (r: LostFoundItem)
    ensures r.status == VerifiedStatus && r.claimedBy.None?
    ensures r.(status := x.status, claimedBy := x.claimedBy) == x
  {
    x.(status := VerifiedStatus, claimedBy := None)
  }

  /** A denied claim puts the item back among the verified ones. */
  lemma DeniedClaimListed(allItems: seq<LostFoundItem>, x: LostFoundItem)
    requires ClaimDenied(x) in allItems
    ensures ClaimDenied(x) in ByStatus(allItems, VerifiedStatus)
  {
    var y := ClaimDenied(x);
    assert y.status == VerifiedStatus;
    ByStatusMembers(allItems, VerifiedStatus);
  }

  /** A resolution takes the item out of every list. */
  lemma ResolvedUnlisted(allItems: seq<LostFoundItem>, x: LostFoundItem)
    ensures var y := WithStatus(x, ResolvedStatus);
      y !in ByStatus(allItems, OpenStatus) && y !in ByStatus(allItems, VerifiedStatus)
      && y !in ByStatus(allItems, ClaimPendingStatus)
  {
    var y := WithStatus(x, ResolvedStatus);
    assert y.status !in ListedStatuses;
    ListsDisjoint(allItems, y);
  }

  class LostAndFoundAdminViewModel {
    var pendingItems: seq<LostFoundItem>
    var verifiedItems: seq<LostFoundItem>
    var pendingClaims: seq<LostFoundItem>
    var isLoading: bool
    /** The `lostAndFoundItems` collection. */
    var items: map<string, LostFoundItem>

    /** A fresh `AdminLostFoundState()`; `init` starts the listener. */
    constructor (items: map<string, LostFoundItem>)
      ensures pendingItems == [] && verifiedItems == [] && pendingClaims == [] && isLoading
      ensures this.items == items
    {
      pendingItems := [];
      verifiedItems := [];
      pendingClaims := [];
      isLoading := true;
      this.items := items;
    }

    /** The listener of `listenForAllItems`: an error only ends loading, a
        null snapshot without error changes nothing, and a snapshot refills
        the three lists. */
    method OnItemsEvent(event: ListenerEvent<LostFoundItem>)
      modifies this`pendingItems, this`verifiedItems, this`pendingClaims, this`isLoading
      ensures event.ListenError? ==>
        !isLoading && pendingItems == old(pendingItems) && verifiedItems == old(verifiedItems)
        && pendingClaims == old(pendingClaims)
      ensures event.NoSnapshot? ==>
        isLoading == old(isLoading) && pendingItems == old(pendingItems)
        && verifiedItems == old(verifiedItems) && pendingClaims == old(pendingClaims)
      ensures event.Snapshot? ==>
        && !isLoading
        && pendingItems == ByStatus(event.docs, OpenStatus)
        && verifiedItems == ByStatus(event.docs, VerifiedStatus)
        && pendingClaims == ByStatus(event.docs, ClaimPendingStatus)
    {
      match event
      case ListenError =>
        isLoading := false;
      case NoSnapshot =>
      case Snapshot(allItems) =>
        isLoading := false;
        pendingItems := ByStatus(allItems, OpenStatus);
        verifiedItems := ByStatus(allItems, VerifiedStatus);
        pendingClaims := ByStatus(allItems, ClaimPendingStatus);
    }

    /** `updateItemStatus(itemId, newStatus)`: `reachable` says whether the
        store accepted the request; an update of an item that is not stored
        fails too. Returns whether the status was written. */
    method UpdateItemStatus(itemId: string, newStatus: string, reachable: bool) returns (ok: bool)
      modifies this`items
      ensures ok <==> !IsBlank(itemId) && itemId in old(items) && reachable
      ensures ok ==> items == old(items)[itemId := WithStatus(old(items)[itemId], newStatus)]
      ensures !ok ==> items == old(items)
    {
      if IsBlank(itemId) {
        return false;
      }
      if reachable && itemId in items {
        items := items[itemId := items[itemId].(status := newStatus)];
        ok := true;
      } else {
        ok := false;
      }
    }

    /** `confirmResolution(itemId)`: the update to `"resolved"`. */
    method ConfirmResolution(itemId: string, reachable: bool) returns (ok: bool)
      modifies this`items
      ensures ok <==> !IsBlank(itemId) && itemId in old(items) && reachable
      ensures ok ==> items == old(items)[itemId := WithStatus(old(items)[itemId], ResolvedStatus)]
      ensures !ok ==> items == old(items)
    {
      ok := UpdateItemStatus(itemId, ResolvedStatus, reachable);
    }

    /** `denyClaim(itemId)`: back to `"verified"` with `claimedBy` cleared. */
    method DenyClaim(itemId: string, reachable: bool) returns (ok: bool)
      modifies this`items
      ensures ok <==> !IsBlank(itemId) && itemId in old(items) && reachable
      ensures ok ==> items == old(items)[itemId := ClaimDenied(old(items)[itemId])]
      ensures !ok ==> items == old(items)
    {
      if IsBlank(itemId) {
        return false;
      }
      if reachable && itemId in items {
        items := items[itemId := items[itemId].(status := VerifiedStatus, claimedBy := None)];
        ok := true;
      } else {
        ok := false;
      }
    }
  }
}
