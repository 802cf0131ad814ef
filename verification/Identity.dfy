/** Node identities: the key interner, ids in two halves, and ids as keys on the wire
    (crates/rustnative-core/src/identity.rs and wire.rs). */
module Identity {
  import opened Wrappers

  const WORD: nat := 0x1_0000_0000_0000_0000

  /** The number of keys after which the interner panics instead of wrapping. */
  const EXHAUSTED: nat := 0xFFFF_FFFF_FFFF_FFFF

  // ---------------------------------------------------------------------
  // The interner
  // ---------------------------------------------------------------------

  /** Every key interned so far; a key's id is its position. */
  type Keys = seq<string>

  ghost predicate Distinct(keys: Keys) {
    forall i, j :: 0 <= i < j < |keys| ==> keys[i] != keys[j]
  }

  function Find(keys: Keys, key: string): (at: nat)
    ensures at <= |keys|
    ensures at < |keys| ==> keys[at] == key
    ensures key in keys ==> at < |keys|
  {
    if keys == [] then 0
    else if keys[0] == key then 0
    else 1 + Find(keys[1..], key)
  }

  /** The keys after `key` is interned: itself added at the end unless it is there already. */
  function Interned(keys: Keys, key: string): Keys {
    if key in keys then keys else keys + [key]
  }

  lemma InternedKeeps(keys: Keys, key: string)
    requires Distinct(keys)
    ensures Distinct(Interned(keys, key)) && keys <= Interned(keys, key)
    ensures Find(Interned(keys, key), key) < |Interned(keys, key)|
  {
  }

  class KeyInterner {
    var ids: map<string, nat>
    var keys: Keys
    var next: nat

    ghost predicate Valid()
      reads this
    {
      && next == |keys| <= EXHAUSTED
      && Distinct(keys)
      && (forall k :: k in ids <==> k in keys)
      && (forall k :: k in ids ==> ids[k] < |keys| && keys[ids[k]] == k)
    }

    constructor ()
      ensures Valid() && keys == []
    {
      ids, keys, next := map[], [], 0;
    }

    /** The id of `key`, a new one if it has none; `None` stands for the panic of an exhausted
        interner. */
    method Intern(key: string) returns (id: Option<nat>)
      requires Valid()
      modifies this
      ensures Valid()
      ensures id.Some? ==> keys == Interned(old(keys), key) && id.value == Find(keys, key)
      ensures id.None? <==> key !in old(keys) && |old(keys)| == EXHAUSTED
      ensures id.None? ==> keys == old(keys)
    {
      if key in ids {
        return Some(ids[key]);
      }
      if next == EXHAUSTED {
        return None;
      }
      id := Some(next);
      next := next + 1;
      ids := ids[key := id.value];
      keys := keys + [key];
      assert keys[id.value] == key;
    }
  }

  function InternedAll(keys: Keys, more: seq<string>): Keys
    decreases |more|
  {
    if more == [] then keys else InternedAll(Interned(keys, more[0]), more[1..])
  }

  lemma {:induction false} InternedAllKeeps(keys: Keys, more: seq<string>)
    requires Distinct(keys)
    ensures Distinct(InternedAll(keys, more)) && keys <= InternedAll(keys, more)
    ensures forall k :: k in InternedAll(keys, more) <==> k in keys || k in more
    decreases |more|
  {
    if more != [] {
      InternedKeeps(keys, more[0]);
      InternedAllKeeps(Interned(keys, more[0]), more[1..]);
      assert more == [more[0]] + more[1..];
    }
  }

  /** The interner is a growing bijection: the id a key got early in a run names it ever
      after, and two keys interned at any two moments share an id exactly when they are equal. */
  lemma InternerIsBijective(early: seq<string>, a: string, between: seq<string>, b: string, late: seq<string>)
    ensures var k1 := Interned(InternedAll([], early), a);
      var k2 := Interned(InternedAll(k1, between), b);
      var keys := InternedAll(k2, late);
      && Find(k1, a) < |keys| && keys[Find(k1, a)] == a
      && Find(k2, b) < |keys| && keys[Find(k2, b)] == b
      && (Find(k1, a) == Find(k2, b) <==> a == b)
      && Distinct(keys)
  {
    InternedAllKeeps([], early);
    InternedKeeps(InternedAll([], early), a);
    var k1 := Interned(InternedAll([], early), a);
    InternedAllKeeps(k1, between);
    InternedKeeps(InternedAll(k1, between), b);
    var k2 := Interned(InternedAll(k1, between), b);
    InternedAllKeeps(k2, late);
    assert k2[Find(k1, a)] == a;
  }

  // ---------------------------------------------------------------------
  // Ids in two halves
  // ---------------------------------------------------------------------

  /** A 128-bit id: the owning component above, the interned key below. */
  type NodeId = id: nat | id < WORD * WORD

  function Scoped(owner: nat, local: NodeId): NodeId
    requires owner < WORD
  {
    Halves(owner, local % WORD);
    owner * WORD + local % WORD
  }

  function Owner(id: NodeId): Option<nat> {
    if id / WORD != 0 then Some(id / WORD) else None
  }

  function Local(id: NodeId): nat {
    id % WORD
  }

  lemma Halves(high: nat, low: nat)
    requires high < WORD && low < WORD
    ensures high * WORD + low < WORD * WORD
    ensures (high * WORD + low) / WORD == high && (high * WORD + low) % WORD == low
  {
  }

  /** Different owners, or different keys under one owner, never share an id. */
  lemma ScopedIsInjective(owner: nat, local: NodeId, otherOwner: nat, otherLocal: NodeId)
    requires owner < WORD && otherOwner < WORD
    ensures Scoped(owner, local) == Scoped(otherOwner, otherLocal)
       <==> owner == otherOwner && Local(local) == Local(otherLocal)
    ensures Local(Scoped(owner, local)) == Local(local)
    ensures Owner(Scoped(owner, local)) == if owner == 0 then None else Some(owner)
  {
    Halves(owner, local % WORD);
    Halves(otherOwner, otherLocal % WORD);
  }
}
