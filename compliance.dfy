/**
 * Compliance checklist of one farm on the main dashboard's compliance page
 * (`compliance_tracking_page` in app.py). Each of the eight checklist items
 * is Pending (also when it has no entry), Submitted (a document was uploaded)
 * or Verified (an administrator accepted it); the page writes the farm's
 * checklist dictionary in place.
 */
module Compliance {

  import opened Wrappers

  datatype Status = Pending | Submitted | Verified

  datatype ChecklistItem = ChecklistItem(id: string, title: string, required: bool)

  /** The eight checklist items, in page order. */
  const Items: seq<ChecklistItem> := [
    ChecklistItem("vaccination_certificate", "Vaccination Certificate", true),
    ChecklistItem("waste_disposal_permit", "Waste Disposal Permit", true),
    ChecklistItem("water_quality_report", "Water Quality Test Report", true),
    ChecklistItem("feed_safety_certificate", "Feed Safety Certificate", true),
    ChecklistItem("biosecurity_plan", "Biosecurity Management Plan", true),
    ChecklistItem("worker_training_records", "Worker Training Records", false),
    ChecklistItem("insurance_policy", "Farm Insurance Policy", false),
    ChecklistItem("emergency_response_plan", "Emergency Response Plan", false)
  ]

  /** `checklist.get(id, 'Pending')`. */
  function StatusIn(checklist: map<string, Status>, id: string): (s: Status)
    ensures id !in checklist ==> s == Pending
    ensures id in checklist ==> s == checklist[id]
  {
    if id in checklist then checklist[id] else Pending
  }

  /** Item `k` is the first item titled `title`. */
  predicate FirstTitled(items: seq<ChecklistItem>, title: string, k: int) {
    0 <= k < |items| && items[k].title == title && forall j :: 0 <= j < k ==> items[j].title != title
  }

  /**
   * `next(item['id'] for item in checklist_items if item['title'] == title)`:
   * the id of the first item with that title, or None where Python would
   * raise StopIteration.
   */
  function IdForTitle(items: seq<ChecklistItem>, title: string): (r: Option<string>)
    ensures r.None? <==> forall k :: 0 <= k < |items| ==> items[k].title != title
    ensures r.Some? ==> exists k :: FirstTitled(items, title, k) && items[k].id == r.value
  {
    if items == [] then None
    else if items[0].title == title then
      assert FirstTitled(items, title, 0);
      Some(items[0].id)
    else
      var r := IdForTitle(items[1..], title);
      assert forall k :: 1 <= k < |items| ==> items[k] == items[1..][k - 1];
      if r.Some? then
        assert exists k :: FirstTitled(items, title, k) && items[k].id == r.value by {
          var k :| FirstTitled(items[1..], title, k) && items[1..][k].id == r.value;
          assert items[k + 1] == items[1..][k];
          forall j | 1 <= j < k + 1 ensures items[j].title != title {
            assert items[j] == items[1..][j - 1];
          }
          assert FirstTitled(items, title, k + 1);
        }
        r
      else r
  }

  /** How many of `items` have status `s` in `checklist`. */
  function CountStatus(checklist: map<string, Status>, items: seq<ChecklistItem>, s: Status): (n: nat)
    ensures n <= |items|
  {
    if items == [] then 0
    else (if StatusIn(checklist, items[0].id) == s then 1 else 0) + CountStatus(checklist, items[1..], s)
  }

  /** No item is both verified and under review, so the two counts never exceed the item count. */
  lemma {:induction false} VerifiedAndSubmittedBounded(checklist: map<string, Status>, items: seq<ChecklistItem>)
    ensures CountStatus(checklist, items, Verified) + CountStatus(checklist, items, Submitted) <= |items|
  {
    if items != [] {
      VerifiedAndSubmittedBounded(checklist, items[1..]);
    }
  }

  /** No two items share an id. */
  predicate DistinctIds(items: seq<ChecklistItem>) {
    forall i, j :: 0 <= i < j < |items| ==> items[i].id != items[j].id
  }

  /** Setting the status of an id no item has changes no count. */
  lemma {:induction false} CountIgnoresOtherIds(checklist: map<string, Status>, items: seq<ChecklistItem>, id: string, t: Status, s: Status)
    requires forall k :: 0 <= k < |items| ==> items[k].id != id
    ensures CountStatus(checklist[id := t], items, s) == CountStatus(checklist, items, s)
  {
    if items != [] {
      CountIgnoresOtherIds(checklist, items[1..], id, t, s);
    }
  }

  /**
   * Setting one item's status from `u` to `t` moves exactly that item from
   * the count of `u` to the count of `t`.
   */
  lemma {:induction false} CountAfterUpdate(checklist: map<string, Status>, items: seq<ChecklistItem>, k: nat, t: Status, s: Status)
    requires DistinctIds(items)
    requires k < |items|
    ensures var id := items[k].id;
      CountStatus(checklist[id := t], items, s)
        == CountStatus(checklist, items, s)
           - (if StatusIn(checklist, id) == s then 1 else 0)
           + (if t == s then 1 else 0)
  {
    var id := items[k].id;
    assert DistinctIds(items[1..]) by {
      forall i, j | 0 <= i < j < |items| - 1 ensures items[1..][i].id != items[1..][j].id {
        assert items[1..][i] == items[i + 1] && items[1..][j] == items[j + 1];
      }
    }
    if k == 0 {
      forall j | 0 <= j < |items| - 1 ensures items[1..][j].id != id {
        assert items[1..][j] == items[j + 1];
      }
      CountIgnoresOtherIds(checklist, items[1..], id, t, s);
    } else {
      assert items[1..][k - 1] == items[k];
      CountAfterUpdate(checklist, items[1..], k - 1, t, s);
    }
  }

  lemma ItemsHaveDistinctIds()
    ensures |Items| == 8
    ensures DistinctIds(Items)
  {
  }

  /** A verification that succeeds turns one not-yet-verified item into a verified one. */
  lemma VerifyAddsOne(checklist: map<string, Status>, k: nat)
    requires k < |Items|
    requires StatusIn(checklist, Items[k].id) != Verified
    ensures CountStatus(checklist[Items[k].id := Verified], Items, Verified)
         == CountStatus(checklist, Items, Verified) + 1
  {
    ItemsHaveDistinctIds();
    CountAfterUpdate(checklist, Items, k, Verified, Verified);
  }

  /** Rejecting a verified item takes it out of the verified count. */
  lemma RejectRemovesOne(checklist: map<string, Status>, k: nat)
    requires k < |Items|
    requires StatusIn(checklist, Items[k].id) == Verified
    ensures CountStatus(checklist[Items[k].id := Pending], Items, Verified)
         == CountStatus(checklist, Items, Verified) - 1
  {
    ItemsHaveDistinctIds();
    CountAfterUpdate(checklist, Items, k, Pending, Verified);
  }

  class ComplianceRecord {
    /** Item id to status; a missing id reads as Pending. */
    var checklist: map<string, Status>
    /** Item id to the uploaded file's name. */
    var documents: map<string, string>

    /** A farm the store does not know yet: no documents, empty checklist. */
    constructor New()
      ensures checklist == map[] && documents == map[]
    {
      checklist := map[];
      documents := map[];
    }

    function Status(id: string): Status
      reads this
    {
      StatusIn(checklist, id)
    }

    /** An upload for the item titled `title` marks it Submitted, whatever it was. */
    method Upload(title: string, filename: string)
      requires IdForTitle(Items, title).Some?
      modifies this
      ensures var id := IdForTitle(Items, title).value;
        && checklist == old(checklist)[id := Submitted]
        && documents == old(documents)[id := filename]
    {
      var id := IdForTitle(Items, title).value;
      documents := documents[id := filename];
      checklist := checklist[id := Submitted];
    }

    /**
     * "Verify" on an item: offered only to a logged-in administrator and only
     * for items with an uploaded document; it marks the item Verified.
     */
    method Verify(adminLoggedIn: bool, id: string)
      modifies this
      ensures documents == old(documents)
      ensures checklist == if adminLoggedIn && id in documents
        then old(checklist)[id := Verified] else old(checklist)
    {
      if adminLoggedIn && id in documents {
        checklist := checklist[id := Verified];
      }
    }

    /** "Reject" on an item: same conditions as Verify; it sets the item back to Pending. */
    method Reject(adminLoggedIn: bool, id: string)
      modifies this
      ensures documents == old(documents)
      ensures checklist == if adminLoggedIn && id in documents
        then old(checklist)[id := Pending] else old(checklist)
    {
      if adminLoggedIn && id in documents {
        checklist := checklist[id := Pending];
      }
    }

    /** The status summary: verified and under-review counts over the eight items. */
    method Summary() returns (verified: nat, submitted: nat, total: nat)
      ensures total == |Items| == 8
      ensures verified == CountStatus(checklist, Items, Verified)
      ensures submitted == CountStatus(checklist, Items, Submitted)
      ensures verified + submitted <= total
    {
      total := |Items|;
      verified, submitted := 0, 0;
      var i := |Items|;
      while i > 0
        invariant 0 <= i <= |Items|
        invariant verified == CountStatus(checklist, Items[i..], Verified)
        invariant submitted == CountStatus(checklist, Items[i..], Submitted)
      {
        i := i - 1;
        assert Items[i..][1..] == Items[i + 1..];
        var s := StatusIn(checklist, Items[i].id);
        if s == Verified {
          verified := verified + 1;
        }
        if s == Submitted {
          submitted := submitted + 1;
        }
      }
      assert Items[0..] == Items;
      VerifiedAndSubmittedBounded(checklist, Items);
    }
  }
}
