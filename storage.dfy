/** `StorageService`: the ordered plan collection, written through to a key-value
    store after every change, and the placeholder sign-in flags.

    The key-value store is the ghost field `persisted`: the value the collection
    was last written as. Plans are objects, so the collection is a sequence of
    references and the written value is read off those objects at write time. */
module Storage {
  import opened Wrappers
  import opened PlanModel

  /** `plans.findIndex(p => p.id === id)`: the first position holding `id`, or -1. */
  function FindIndex(plans: seq<Plan>, id: string): (i: int)
    ensures -1 <= i < |plans|
    ensures i >= 0 ==> plans[i].id == id && forall j :: 0 <= j < i ==> plans[j].id != id
    ensures i < 0 ==> forall j :: 0 <= j < |plans| ==> plans[j].id != id
  {
    if plans == [] then -1
    else if plans[0].id == id then 0
    else
      var k := FindIndex(plans[1..], id);
      if k < 0 then -1 else k + 1
  }

  predicate HasId(plans: seq<Plan>, id: string)
  {
    exists j :: 0 <= j < |plans| && plans[j].id == id
  }

  /** The collection after `savePlan(p)`: the first plan with `p`'s id replaced by
      `p`, or `p` appended when there is none. */
  function Upsert(plans: seq<Plan>, p: Plan): (r: seq<Plan>)
    ensures p in r
    ensures |r| == (if HasId(plans, p.id) then |plans| else |plans| + 1)
  {
    var i := FindIndex(plans, p.id);
    if i >= 0 then
      var r := plans[i := p];
      assert r[i] == p;
      r
    else
      var r := plans + [p];
      assert r[|plans|] == p;
      r
  }

  /** The collection after `deletePlan(id)`: the plans whose id differs, in order. */
  function RemoveId(plans: seq<Plan>, id: string): (r: seq<Plan>)
    ensures |r| <= |plans|
    ensures forall j :: 0 <= j < |r| ==> r[j] in plans && r[j].id != id
    ensures forall j :: 0 <= j < |plans| && plans[j].id != id ==> plans[j] in r
  {
    if plans == [] then []
    else (if plans[0].id == id then [] else [plans[0]]) + RemoveId(plans[1..], id)
  }

  /** The value of the whole collection, as the store would be given it. */
  ghost function Snapshot(plans: seq<Plan>): (s: seq<PlanRecord>)
    reads plans
    ensures |s| == |plans|
    ensures forall j :: 0 <= j < |plans| ==> s[j] == plans[j].Record()
  {
    if plans == [] then [] else Snapshot(plans[..|plans| - 1]) + [plans[|plans| - 1].Record()]
  }

  /** Saving a plan whose id is present puts it at the position of the first
      plan with that id; the length and every other entry stay as they were. */
  lemma UpsertReplacesFirst(plans: seq<Plan>, p: Plan, i: int)
    requires 0 <= i < |plans| && plans[i].id == p.id
    requires forall j :: 0 <= j < i ==> plans[j].id != p.id
    ensures |Upsert(plans, p)| == |plans| && Upsert(plans, p)[i] == p
    ensures forall j :: 0 <= j < |plans| && j != i ==> Upsert(plans, p)[j] == plans[j]
  {
    assert FindIndex(plans, p.id) == i;
  }

  /** A save loses no other plan: every plan with another id is still listed. */
  lemma UpsertKeepsOthers(plans: seq<Plan>, p: Plan, q: Plan)
    requires q in plans && q.id != p.id
    ensures q in Upsert(plans, p)
  {
    var i := FindIndex(plans, p.id);
    var j :| 0 <= j < |plans| && plans[j] == q;
    if i >= 0 {
      assert Upsert(plans, p)[j] == q;
    } else {
      assert Upsert(plans, p)[j] == q;
    }
  }

  /** Saving a plan with a new id appends it; the existing entries keep their order. */
  lemma UpsertAppendsNew(plans: seq<Plan>, p: Plan)
    requires !HasId(plans, p.id)
    ensures Upsert(plans, p) == plans + [p]
  {
  }

  /** After a save, the collection holds the saved plan, and it is the first plan
      with its id. */
  lemma UpsertContains(plans: seq<Plan>, p: Plan)
    ensures FindIndex(Upsert(plans, p), p.id) >= 0
    ensures Upsert(plans, p)[FindIndex(Upsert(plans, p), p.id)] == p
  {
    var i := FindIndex(plans, p.id);
    var r := Upsert(plans, p);
    var k := if i >= 0 then i else |plans|;
    assert r[k] == p;
    assert forall j :: 0 <= j < k ==> r[j] == plans[j];
    assert FindIndex(r, p.id) == k;
  }

  /** Saving the same plan twice leaves the collection as saving it once. */
  lemma UpsertIdempotent(plans: seq<Plan>, p: Plan)
    ensures Upsert(Upsert(plans, p), p) == Upsert(plans, p)
  {
    UpsertContains(plans, p);
  }

  /** Saving a plan object that is already the first entry with its id (the
      dashboard's case: it edits the stored object itself) keeps the list of
      references as it is. */
  lemma UpsertStoredObject(plans: seq<Plan>, p: Plan)
    requires FindIndex(plans, p.id) >= 0 && plans[FindIndex(plans, p.id)] == p
    ensures Upsert(plans, p) == plans
  {
  }

  /** Deleting distributes over concatenation, so it keeps the order of the plans
      it keeps. */
  lemma {:induction false} RemoveIdConcat(a: seq<Plan>, b: seq<Plan>, id: string)
    ensures RemoveId(a + b, id) == RemoveId(a, id) + RemoveId(b, id)
  {
    if a == [] {
      assert a + b == b;
    } else {
      assert (a + b)[1..] == a[1..] + b;
      RemoveIdConcat(a[1..], b, id);
    }
  }

  /** Deleting an id that no plan carries changes nothing. */
  lemma {:induction false} RemoveAbsentId(plans: seq<Plan>, id: string)
    requires !HasId(plans, id)
    ensures RemoveId(plans, id) == plans
  {
    if plans != [] {
      assert !HasId(plans[1..], id) by {
        forall j | 0 <= j < |plans[1..]| ensures plans[1..][j].id != id {
          assert plans[1..][j] == plans[j + 1];
        }
      }
      RemoveAbsentId(plans[1..], id);
      assert plans == [plans[0]] + plans[1..];
    }
  }

  /** Deleting twice is deleting once. */
  lemma RemoveIdTwice(plans: seq<Plan>, id: string)
    ensures RemoveId(RemoveId(plans, id), id) == RemoveId(plans, id)
  {
    var r := RemoveId(plans, id);
    assert !HasId(r, id) by {
      forall j | 0 <= j < |r| ensures r[j].id != id {
        assert r[j] in r;
      }
    }
    RemoveAbsentId(r, id);
  }

  datatype Profile = Profile(name: string, picture: string)

  class PlanStore {
    var plans: seq<Plan>
    /** What the key-value store holds under the plans key. */
    ghost var persisted: seq<PlanRecord>
    var isAuthenticated: bool
    var userProfile: Option<Profile>

    /** The service as `loadLocal` leaves it: `loaded` are the plans read back from
        the store, signed out. */
    constructor (loaded: seq<Plan>)
      ensures plans == loaded && persisted == Snapshot(loaded)
      ensures !isAuthenticated && userProfile == None
    {
      plans := loaded;
      persisted := Snapshot(loaded);
      isAuthenticated, userProfile := false, None;
    }

    /** `savePlan`: upsert by id, then write the whole new list. */
    method SavePlan(p: Plan)
      modifies this`plans, this`persisted
      ensures plans == Upsert(old(plans), p)
      ensures persisted == Snapshot(plans)
    {
      var i := FindIndex(plans, p.id);
      var newPlans;
      if i >= 0 {
        newPlans := plans[i := p];
      } else {
        newPlans := plans + [p];
      }
      assert newPlans == Upsert(plans, p);
      Persist(newPlans);
      plans := newPlans;
    }

    /** `deletePlan`: keep the plans with another id, then write the whole new list. */
    method DeletePlan(id: string)
      modifies this`plans, this`persisted
      ensures plans == RemoveId(old(plans), id)
      ensures persisted == Snapshot(plans)
    {
      var newPlans := RemoveId(plans, id);
      Persist(newPlans);
      plans := newPlans;
    }

    /** `persist`: write the value of `newPlans` to the store. */
    method Persist(newPlans: seq<Plan>)
      modifies this`persisted
      ensures persisted == Snapshot(newPlans)
    {
      persisted := Snapshot(newPlans);
    }

    /** `loginToGoogle`: the placeholder sign-in, which always succeeds. */
    method LoginToGoogle()
      modifies this`isAuthenticated, this`userProfile
      ensures isAuthenticated
      ensures userProfile == Some(Profile("User", "https://ui-avatars.com/api/?name=User"))
    {
      isAuthenticated := true;
      userProfile := Some(Profile("User", "https://ui-avatars.com/api/?name=User"));
    }

    method Logout()
      modifies this`isAuthenticated, this`userProfile
      ensures !isAuthenticated && userProfile == None
    {
      isAuthenticated := false;
      userProfile := None;
    }
  }
}
