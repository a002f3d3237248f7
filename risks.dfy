/**
 * The in-memory risk store: a map from identifier to risk record, the rule
 * that decides which lifecycle states a record may carry, and the three
 * operations on the store (create, list, get by identifier).
 */
module Risks {
  import opened Wrappers
  import opened Uuids

  /** The lifecycle states a record may carry. */
  const ValidStates: set<string> := {"open", "closed", "accepted", "investigating"}

  /** The state check of create: membership in the fixed set of states. */
  predicate ValidState(s: string): (ok: bool)
    ensures ok <==> s == "open" || s == "closed" || s == "accepted" || s == "investigating"
    ensures ok ==> s != ""
  {
    s in ValidStates
  }

  /** A risk record. */
  datatype Risk = Risk(id: Uuid, state: string, title: string, description: string)

  /** The zero value of a record: Nil identifier and empty text fields. */
  const ZeroRisk: Risk := Risk(Nil, "", "", "")

  /** Why create refused a candidate. */
  datatype CreateError =
    | DecodeFailed
    | InvalidState(message: string)

  /** Why get refused a request. */
  datatype GetError = MalformedId(message: string)

  const InvalidStateMessage: string :=
    "Invalid state. Must be one of [open, closed, accepted, investigating]"
  const MalformedIdMessage: string := "ID provided is not a valid UUID."

  /**
   * The invariant of the store: every record sits under its own identifier,
   * carries a valid state, and that identifier is a version 4 one.
   */
  ghost predicate StoreInvariant(m: map<Uuid, Risk>) {
    forall k :: k in m ==> m[k].id == k && ValidState(m[k].state) && IsV4(k)
  }

  /**
   * The checks create makes before it touches the store, and the record it
   * would insert: a candidate that failed to decode or whose state is not a
   * valid one is refused; otherwise the candidate gets the identifier `id`,
   * whatever identifier it came with.
   */
  function Admit(decoded: Option<Risk>, id: Uuid): (res: Result<Risk, CreateError>)
    ensures decoded.None? ==> res == Err(DecodeFailed)
    ensures decoded.Some? && !ValidState(decoded.value.state) ==>
              res == Err(InvalidState(InvalidStateMessage))
    ensures res.Ok? <==> decoded.Some? && ValidState(decoded.value.state)
    ensures res.Ok? ==> && res.value.id == id
                        && res.value.state == decoded.value.state
                        && res.value.title == decoded.value.title
                        && res.value.description == decoded.value.description
  {
    match decoded
    case None => Err(DecodeFailed)
    case Some(candidate) =>
      if !ValidState(candidate.state) then Err(InvalidState(InvalidStateMessage))
      else Ok(candidate.(id := id))
  }

  /** The store after create has reported `res`: an admitted record is stored under its identifier. */
  function Commit(m: map<Uuid, Risk>, res: Result<Risk, CreateError>): (m': map<Uuid, Risk>)
    ensures res.Err? ==> m' == m
    ensures res.Ok? ==> m'.Keys == m.Keys + {res.value.id} && m'[res.value.id] == res.value
    ensures forall k :: k in m && (res.Err? || k != res.value.id) ==> k in m' && m'[k] == m[k]
  {
    if res.Ok? then m[res.value.id := res.value] else m
  }

  /** Indexing the map as Go does: a missing key yields the zero record. */
  function Lookup(m: map<Uuid, Risk>, id: Uuid): (r: Risk)
    ensures id in m ==> r == m[id]
    ensures id !in m ==> r == ZeroRisk
  {
    if id in m then m[id] else ZeroRisk
  }

  /** A refused create leaves the store as it was. */
  lemma CommitRefusedIsNoop(m: map<Uuid, Risk>, decoded: Option<Risk>, random: Uuid)
    ensures Admit(decoded, NewV4(random)).Err? ==> Commit(m, Admit(decoded, NewV4(random))) == m
  {
  }

  /**
   * An admitted create under an identifier not yet in the store adds exactly
   * that key, leaves every other entry as it was, and grows the store by one.
   */
  lemma CommitFreshAddsOne(m: map<Uuid, Risk>, res: Result<Risk, CreateError>)
    requires res.Ok? && res.value.id !in m
    ensures Commit(m, res).Keys == m.Keys + {res.value.id}
    ensures forall k :: k in m ==> Commit(m, res)[k] == m[k]
    ensures |Commit(m, res)| == |m| + 1
  {
  }

  /** Create writes no key but the new one, even when that one was already taken. */
  lemma CommitTouchesOnlyNewKey(m: map<Uuid, Risk>, res: Result<Risk, CreateError>, k: Uuid)
    requires res.Err? || k != res.value.id
    ensures Lookup(Commit(m, res), k) == Lookup(m, k)
  {
  }

  /** Get on the identifier of an admitted record, right after its create, returns that record. */
  lemma LookupAfterCommit(m: map<Uuid, Risk>, res: Result<Risk, CreateError>)
    requires res.Ok?
    ensures Lookup(Commit(m, res), res.value.id) == res.value
  {
  }

  /** Create keeps the store invariant, whatever the candidate and the random bytes. */
  lemma CreateKeepsInvariant(m: map<Uuid, Risk>, decoded: Option<Risk>, random: Uuid)
    requires StoreInvariant(m)
    ensures StoreInvariant(Commit(m, Admit(decoded, NewV4(random))))
  {
  }

  /**
   * In a store that keeps its invariant, the record get returns tells present
   * from absent: it has the Nil identifier (and is the zero record) exactly
   * when the key is absent, and otherwise carries the key asked for. Stored
   * keys are version 4, and V4IsNotNil says such a key is never Nil.
   */
  lemma LookupTellsAbsent(m: map<Uuid, Risk>, k: Uuid)
    requires StoreInvariant(m)
    ensures Lookup(m, k).id == Nil <==> k !in m
    ensures Lookup(m, k) == ZeroRisk <==> k !in m
    ensures k in m ==> Lookup(m, k).id == k && ValidState(Lookup(m, k).state)
  {
    if k in m {
      V4IsNotNil(k);
    }
  }

  /**
   * Values read off a store that keeps its invariant, along distinct keys,
   * are distinct records: each carries the key it was read under.
   */
  lemma EnumerationIsDistinct(m: map<Uuid, Risk>, keys: seq<Uuid>, r: seq<Risk>)
    requires StoreInvariant(m)
    requires |keys| == |r|
    requires forall i :: 0 <= i < |r| ==> keys[i] in m && r[i] == m[keys[i]]
    requires forall i, j :: 0 <= i < j < |keys| ==> keys[i] != keys[j]
    ensures forall i, j :: 0 <= i < j < |r| ==> r[i] != r[j]
  {
  }

  /**
   * The values of a map, one per key, gathered in whatever order the keys are
   * picked; `keys` is that order, a ghost record of which key each value came
   * from.
   */
  method CollectValues(m: map<Uuid, Risk>) returns (r: seq<Risk>, ghost keys: seq<Uuid>)
    ensures |r| == |keys| == |m|
    ensures forall i :: 0 <= i < |r| ==> keys[i] in m && r[i] == m[keys[i]]
    ensures forall i, j :: 0 <= i < j < |keys| ==> keys[i] != keys[j]
    ensures forall k :: k in m ==> m[k] in r
  {
    r, keys := [], [];
    ghost var done: set<Uuid> := {};
    var rest := m.Keys;
    while rest != {}
      invariant rest == m.Keys - done && done <= m.Keys
      invariant |keys| == |r| == |done|
      invariant forall i :: 0 <= i < |r| ==> keys[i] in done && r[i] == m[keys[i]]
      invariant forall i, j :: 0 <= i < j < |keys| ==> keys[i] != keys[j]
      invariant forall k :: k in done ==> m[k] in r
      decreases |rest|
    {
      var k :| k in rest;
      r := r + [m[k]];
      keys := keys + [k];
      done := done + {k};
      rest := rest - {k};
    }
  }

  /** The store: the package-level map of records. */
  class Store {
    var risks: map<Uuid, Risk>

    ghost predicate Valid()
      reads this
    {
      StoreInvariant(risks)
    }

    /** The store as the program starts: empty. */
    constructor ()
      ensures Valid()
      ensures risks == map[]
    {
      risks := map[];
    }

    /**
     * Create a record from the decoded request body (`None` when decoding
     * failed), with the identifier made from `random`. A refusal returns
     * before the store is touched.
     */
    method Create(decoded: Option<Risk>, random: Uuid) returns (res: Result<Risk, CreateError>)
      requires Valid()
      modifies this
      ensures Valid()
      ensures res == Admit(decoded, NewV4(random))
      ensures risks == Commit(old(risks), res)
      ensures res.Err? ==> risks == old(risks)
      ensures res.Ok? ==> risks == old(risks)[res.value.id := res.value]
    {
      if decoded.None? {
        return Err(DecodeFailed);
      }
      var risk := decoded.value;
      if !ValidState(risk.state) {
        return Err(InvalidState(InvalidStateMessage));
      }
      risk := risk.(id := NewV4(random));
      risks := risks[risk.id := risk];
      res := Ok(risk);
    }

    /**
     * Every record in the store, once each, in an order the store does not
     * promise: the map's values, as many as it has keys.
     */
    method List() returns (r: seq<Risk>)
      requires Valid()
      ensures |r| == |risks|
      ensures forall i :: 0 <= i < |r| ==> r[i] in risks.Values
      ensures forall k :: k in risks ==> risks[k] in r
      ensures forall i, j :: 0 <= i < j < |r| ==> r[i] != r[j]
    {
      ghost var keys;
      r, keys := CollectValues(risks);
      EnumerationIsDistinct(risks, keys, r);
    }

    /**
     * Get by identifier: `parsed` is the outcome of parsing the path text
     * (`None` when it is not a valid identifier). A missing key yields the
     * zero record.
     */
    method Get(parsed: Option<Uuid>) returns (res: Result<Risk, GetError>)
      requires Valid()
      ensures parsed.None? ==> res == Err(MalformedId(MalformedIdMessage))
      ensures parsed.Some? && parsed.value in risks ==> res == Ok(risks[parsed.value])
      ensures parsed.Some? && parsed.value !in risks ==> res == Ok(ZeroRisk)
      ensures res.Ok? ==> (res.value.id == Nil <==> parsed.value !in risks)
    {
      if parsed.None? {
        return Err(MalformedId(MalformedIdMessage));
      }
      var risk := Lookup(risks, parsed.value);
      LookupTellsAbsent(risks, parsed.value);
      res := Ok(risk);
    }
  }

  /**
   * A client of the store: the create of the handler test, a second create,
   * a refused create, then list and get.
   */
  method CreateListGetScenario(random1: Uuid, random2: Uuid, random3: Uuid)
    requires NewV4(random1) != NewV4(random2)
  {
    var store := new Store();
    var first := store.Create(Some(Risk(Nil, "open", "I am a title", "I am a description")), random1);
    assert first == Ok(Risk(NewV4(random1), "open", "I am a title", "I am a description"));
    var second := store.Create(Some(Risk(random1, "closed", "", "")), random2);
    assert second.Ok? && second.value.id == NewV4(random2);
    var before := store.risks;
    var bogus := store.Create(Some(Risk(Nil, "bogus", "", "")), random3);
    assert bogus == Err(InvalidState(InvalidStateMessage));
    assert store.risks == before;

    var all := store.List();
    assert store.risks.Keys == {NewV4(random1), NewV4(random2)};
    assert |all| == 2;
    assert first.value in all && second.value in all;

    var got := store.Get(Some(NewV4(random1)));
    assert got == Ok(first.value);
    var missing := store.Get(Some(Nil));
    assert missing == Ok(ZeroRisk);
    var malformed := store.Get(None);
    assert malformed.Err?;
  }
}
