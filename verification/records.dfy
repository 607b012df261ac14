/**
 * A minimal stand-in for the payment repository behind the service's read
 * accessors: the saved records in insertion order. Saving appends; lookup by
 * identifier returns the record with that id or nothing.
 */
module PaymentRecords {
  import opened Wrappers
  import opened PaymentDomain

  /** Identifiers of the saved records. */
  function Ids(payments: seq<Payment>): (ids: set<PaymentId>)
    ensures forall i :: 0 <= i < |payments| ==> payments[i].id in ids
    ensures forall id :: id in ids ==> exists i :: 0 <= i < |payments| && payments[i].id == id
  {
    set p | p in payments :: p.id
  }

  /** The store never assigns one identifier twice. */
  predicate UniqueIds(payments: seq<Payment>)
  {
    forall i, j :: 0 <= i < j < |payments| ==> payments[i].id != payments[j].id
  }

  /** Reference lookup: the first saved record carrying `id`. */
  function Lookup(payments: seq<Payment>, id: PaymentId): (r: Option<Payment>)
    ensures r.Some? ==> r.value in payments && r.value.id == id
    ensures r.None? <==> id !in Ids(payments)
  {
    if payments == [] then None
    else if payments[0].id == id then Some(payments[0])
    else Lookup(payments[1..], id)
  }

  /** Records that do not carry `id` can be skipped: the lookup finds the same in the rest. */
  lemma {:induction false} LookupSkips(payments: seq<Payment>, i: nat, id: PaymentId)
    requires i <= |payments|
    requires forall k :: 0 <= k < i ==> payments[k].id != id
    ensures Lookup(payments, id) == Lookup(payments[i..], id)
    decreases i
  {
    if i > 0 {
      LookupSkips(payments[1..], i - 1, id);
      assert payments[1..][i - 1..] == payments[i..];
    }
  }

  /** `findById`: scans the saved records; "not found" is an empty result, never an error. */
  method FindById(payments: seq<Payment>, id: PaymentId) returns (r: Option<Payment>)
    ensures r.Some? ==> r.value in payments && r.value.id == id
    ensures r.None? ==> forall i :: 0 <= i < |payments| ==> payments[i].id != id
    ensures r == Lookup(payments, id)
  {
    var i := 0;
    while i < |payments|
      invariant 0 <= i <= |payments|
      invariant forall k :: 0 <= k < i ==> payments[k].id != id
    {
      if payments[i].id == id {
        LookupSkips(payments, i, id);
        return Some(payments[i]);
      }
      i := i + 1;
    }
    LookupSkips(payments, i, id);
    return None;
  }

  /** `saveAndFlush`: the record is appended. */
  function Save(payments: seq<Payment>, p: Payment): (r: seq<Payment>)
    ensures |r| == |payments| + 1
    ensures r[..|payments|] == payments && r[|payments|] == p
  {
    payments + [p]
  }

  /**
   * After saving a record under a fresh id, looking that id up finds it, and
   * every other id finds what it found before.
   */
  lemma {:induction false} LookupAfterSave(payments: seq<Payment>, p: Payment, id: PaymentId)
    requires p.id !in Ids(payments)
    ensures Lookup(Save(payments, p), id) == if id == p.id then Some(p) else Lookup(payments, id)
    decreases |payments|
  {
    if payments != [] {
      assert Save(payments, p)[1..] == Save(payments[1..], p);
      assert payments[0].id in Ids(payments);
      assert Ids(payments[1..]) <= Ids(payments) by {
        forall x | x in Ids(payments[1..]) ensures x in Ids(payments) {
          var i :| 0 <= i < |payments[1..]| && payments[1..][i].id == x;
          assert payments[i + 1].id == x;
        }
      }
      LookupAfterSave(payments[1..], p, id);
    } else {
      assert Save(payments, p) == [p];
    }
  }

  /** Saving under a fresh id keeps the identifiers unique. */
  lemma SaveKeepsIdsUnique(payments: seq<Payment>, p: Payment)
    requires UniqueIds(payments) && p.id !in Ids(payments)
    ensures UniqueIds(Save(payments, p))
    ensures Ids(Save(payments, p)) == Ids(payments) + {p.id}
  {
  }
}
