/** The in-memory compare-and-swap store (internal/domain/repos/verifications_memory.go). */
module MemoryStore {
  import opened Envelopes
  import opened Records

  datatype PutAnswer = Stored | Conflict | Invalid(error: ValidationError)

  /** The outcome of writing `r` over a store: the record must be valid and carry the
      stored revision, or no revision when nothing is stored. */
  function PutOutcome(store: map<string, Rec>, r: Rec): PutAnswer {
    if Invalidity(r).Some? then Invalid(Invalidity(r).value)
    else if r.id in store then (if r.rev != store[r.id].rev then Conflict else Stored)
    else if r.rev != "" then Conflict
    else Stored
  }

  /** A record is stored exactly when it is complete, keyed by its own address, and carries the
      stored revision, or none when nothing is stored; otherwise a complete record conflicts,
      and an incomplete one is refused whatever its revision. */
  lemma StoredExactly(store: map<string, Rec>, r: Rec)
    ensures var complete := && r.address != "" && r.id == "verification:" + r.address && r.status != Unset
                            && r.email != "" && r.token != "";
            var current := if r.id in store then r.rev == store[r.id].rev else r.rev == "";
            && (PutOutcome(store, r).Stored? <==> complete && current)
            && (PutOutcome(store, r).Conflict? <==> complete && !current)
            && (PutOutcome(store, r).Invalid? <==> !complete)
  {
  }

  /** The record with the token, when one is stored. */
  ghost function Lookup(store: map<string, Rec>, token: string): (r: Option<Rec>)
    ensures r.Some? ==> exists id :: id in store && store[id].token == token && r.value == store[id]
    ensures r.None? ==> forall id :: id in store ==> store[id].token != token
  {
    if exists id :: id in store && store[id].token == token
    then var id :| id in store && store[id].token == token; Some(store[id])
    else None
  }

  ghost predicate DistinctTokens(store: map<string, Rec>) {
    forall i, j :: i in store && j in store && store[i].token == store[j].token ==> i == j
  }

  /** With distinct tokens the lookup does not depend on the iteration order. */
  lemma LookupUnique(store: map<string, Rec>, id: string)
    requires DistinctTokens(store) && id in store
    ensures Lookup(store, store[id].token) == Some(store[id])
  {
    var r := Lookup(store, store[id].token);
    assert r.Some?;
  }

  /** What a record shares with its clones. */
  function EnvelopeOf(v: Verification?): set<object>
    reads v
  {
    if v == null || v.envelope == null then {} else {v.envelope}
  }

  class MemoryVerifications {
    var records: map<string, Verification>
    /** The record objects the store owns, none of which a caller holds, and the envelope
        objects that stored records share with the copies handed in and out. */
    ghost var Repr: set<object>
    /** The pure map the store stands for. */
    ghost var Contents: map<string, Rec>

    ghost predicate Valid()
      reads this, Repr
    {
      && records.Keys == Contents.Keys
      && forall id :: id in records ==> Keeps(id, records[id])
    }

    /** `v` is the object behind the key `id`. */
    ghost predicate Keeps(id: string, v: Verification)
      reads this, Repr
    {
      && v in Repr && (v.envelope != null ==> v.envelope in Repr)
      && v.id == id == DocID(v.address)
      && id in Contents && v.Value() == Contents[id]
    }

    constructor ()
      ensures Valid() && Repr == {} && Contents == map[]
    {
      records, Contents := map[], map[];
      Repr := {};
    }

    /** `rev` is what newRev returns. On success the caller's record gets the new
        revision and the store keeps a clone; on failure nothing changes. */
    method Put(v: Verification?, rev: string) returns (answer: PutAnswer)
      requires Valid() && (v == null || v !in Repr)
      modifies this, v
      ensures Valid() && fresh(Repr - old(Repr) - EnvelopeOf(v))
      ensures v == null ==> answer == Invalid(NilRecord)
      ensures v != null ==> answer == PutOutcome(old(Contents), old(v.Value()))
      ensures v != null ==> v !in Repr && v.envelope == old(v.envelope)
      ensures !answer.Stored? ==>
                Contents == old(Contents) && (v != null ==> v.Value() == old(v.Value()))
      ensures answer.Stored? ==>
                && v.Value() == old(v.Value()).(rev := rev)
                && Contents == old(Contents)[v.id := v.Value()]
    {
      if v == null {
        return Invalid(NilRecord);
      }
      var invalid := Invalidity(v.Value());
      if invalid.Some? {
        return Invalid(invalid.value);
      }
      if v.id in records {
        if v.rev != records[v.id].rev {
          return Conflict;
        }
      } else if v.rev != "" {
        return Conflict;
      }
      v.rev := rev;
      var clone := new Verification.CloneOf(v);
      Insert(clone);
      answer := Stored;
    }

    /** m.records[v.ID] = &clone */
    method Insert(clone: Verification)
      requires Valid() && clone !in Repr && clone.id == DocID(clone.address)
      modifies this
      ensures Valid() && Repr == old(Repr) + {clone} + EnvelopeOf(clone)
      ensures Contents == old(Contents)[clone.id := clone.Value()]
    {
      ghost var before := records;
      records, Contents := records[clone.id := clone], Contents[clone.id := clone.Value()];
      Repr := Repr + {clone} + EnvelopeOf(clone);
      forall id | id in records ensures Keeps(id, records[id]) {
        if id != clone.id {
          assert old(Keeps(id, before[id]));
        }
      }
    }

    method Get(address: Address) returns (v: Verification?)
      requires Valid()
      ensures v == null <==> DocID(address) !in Contents
      ensures v != null ==> fresh(v) && v !in Repr && v.Value() == Contents[DocID(address)]
      ensures EnvelopeOf(v) <= Repr
    {
      var id := DocID(address);
      if id !in records {
        return null;
      }
      v := new Verification.CloneOf(records[id]);
    }

    /** Ranges over the records in any order. */
    method GetByToken(token: string) returns (v: Verification?)
      requires Valid()
      ensures v == null ==> forall id :: id in Contents ==> Contents[id].token != token
      ensures v != null ==> fresh(v) && v !in Repr && v.token == token
      ensures v != null ==> v.id in Contents && v.Value() == Contents[v.id]
      ensures DistinctTokens(Contents) ==>
                Lookup(Contents, token) == if v == null then None else Some(v.Value())
      ensures EnvelopeOf(v) <= Repr
    {
      var left := records.Keys;
      while left != {}
        invariant left <= records.Keys
        invariant forall id :: id in records && id !in left ==> records[id].token != token
      {
        var id :| id in left;
        if records[id].token == token {
          v := new Verification.CloneOf(records[id]);
          if DistinctTokens(Contents) {
            LookupUnique(Contents, id);
          }
          return;
        }
        left := left - {id};
      }
      return null;
    }
  }
}
