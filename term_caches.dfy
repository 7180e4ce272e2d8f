/**
 * The term caches a typed term factory hands every new term to: `NullTermCache`, which gives
 * the term back, and `SimpleTermCache`, which interns terms by `Equals`.
 *
 * `SimpleTermCache` keeps a concurrent dictionary from a term to a weak reference. The
 * dictionary compares keys with the terms' `Equals` and `GetHashCode`, not by identity, so it
 * is modelled as a sequence of entries searched with `Equals` (a Dafny `map` would compare keys
 * by identity). Collection of a weak reference's target is an explicit `Collect` event.
 */
module TermCaches {
  import opened Wrappers
  import opened TypedTerms
  import opened TypedTermFacts

  /** `NullTermCache.GetOrStore`: the term itself, whatever was stored before. */
  function NullGetOrStore(term: Term): (r: Term)
    ensures r == term
  {
    term
  }

  /** One dictionary entry: the key term and the target of its weak reference (`None` once collected). */
  datatype Entry = Entry(key: Term, target: Option<Term>)

  /** The dictionary's state and the term `GetOrStore` returns. */
  datatype Stored = Stored(entries: seq<Entry>, result: Term)

  /**
   * The dictionary's invariant: every key and live target is a valid term, a live target is
   * equal to its key, and no two keys are equal (the dictionary holds one entry per class of
   * equal terms).
   */
  ghost predicate EntriesValid(entries: seq<Entry>)
  {
    (forall i :: 0 <= i < |entries| ==>
       entries[i].key.Valid()
       && (entries[i].target.Some? ==> entries[i].target.value.Valid() && entries[i].target.value.Equals(entries[i].key)))
    && (forall i, j :: 0 <= i < |entries| && 0 <= j < |entries| && i != j ==> !entries[i].key.Equals(entries[j].key))
  }

  /** Every entry's weak reference still points at its own key. */
  ghost predicate TargetsAreKeys(entries: seq<Entry>)
  {
    forall i :: 0 <= i < |entries| ==> entries[i].target == Some(entries[i].key)
  }

  /** The dictionary's lookup: the first entry whose key is equal to `term` (`key.Equals(term)`). */
  function Lookup(entries: seq<Entry>, term: Term): (r: Option<nat>)
    requires forall i :: 0 <= i < |entries| ==> entries[i].key.Valid()
    requires term.Valid()
    ensures r.Some? ==> r.value < |entries| && entries[r.value].key.Equals(term)
    ensures r.Some? ==> forall i :: 0 <= i < r.value ==> !entries[i].key.Equals(term)
    ensures r.None? ==> forall i :: 0 <= i < |entries| ==> !entries[i].key.Equals(term)
  {
    if entries == [] then None
    else if entries[0].key.Equals(term) then Some(0)
    else
      match Lookup(entries[1..], term)
      case None => None
      case Some(k) => Some(k + 1)
  }

  /**
   * `GetOrStore(term)`: `GetOrAdd` finds the entry of a key equal to `term`, or adds one whose
   * key and target are `term`. A live target is returned; a collected one is re-pointed at
   * `term`, and `term` is returned.
   */
  function GetOrStoreSpec(entries: seq<Entry>, term: Term): Stored
    requires forall i :: 0 <= i < |entries| ==> entries[i].key.Valid()
    requires term.Valid()
  {
    match Lookup(entries, term)
    case None => Stored(entries + [Entry(term, Some(term))], term)
    case Some(i) =>
      match entries[i].target
      case Some(t) => Stored(entries, t)
      case None => Stored(entries[i := Entry(entries[i].key, Some(term))], term)
  }

  class SimpleTermCache {
    /** The concurrent dictionary, in the order its entries were added. */
    var entries: seq<Entry>

    ghost predicate Valid()
      reads this
    {
      EntriesValid(entries)
    }

    /** A new cache is empty. */
    constructor ()
      ensures Valid() && entries == []
    {
      entries := [];
    }

    /** `GetOrStore(term)`. */
    method GetOrStore(term: Term) returns (r: Term)
      requires Valid() && term.Valid()
      modifies this
      ensures Valid()
      ensures Stored(entries, r) == GetOrStoreSpec(old(entries), term)
    {
      GetOrStoreKeepsValid(entries, term);
      var found := Lookup(entries, term);
      match found
      case None =>
        entries := entries + [Entry(term, Some(term))];
        r := term;
      case Some(i) =>
        match entries[i].target
        case Some(t) =>
          r := t;
        case None =>
          entries := entries[i := Entry(entries[i].key, Some(term))];
          r := term;
    }

    /** The garbage collector clearing the target of entry `i`'s weak reference. */
    method Collect(i: nat)
      requires Valid() && i < |entries|
      modifies this
      ensures Valid()
      ensures entries == old(entries)[i := Entry(old(entries)[i].key, None)]
    {
      entries := entries[i := Entry(entries[i].key, None)];
    }
  }

  // ---------------------------------------------------------------- properties

  /** `GetOrStore` keeps the dictionary's invariant, and returns a valid term equal to its argument. */
  lemma GetOrStoreKeepsValid(entries: seq<Entry>, term: Term)
    requires EntriesValid(entries) && term.Valid()
    ensures EntriesValid(GetOrStoreSpec(entries, term).entries)
    ensures GetOrStoreSpec(entries, term).result.Valid()
    ensures GetOrStoreSpec(entries, term).result.Equals(term)
  {
    var s := GetOrStoreSpec(entries, term);
    match Lookup(entries, term)
    case None =>
      forall i | 0 <= i < |entries|
        ensures !term.Equals(entries[i].key)
      {
        EqualsSymmetric(term, entries[i].key);
      }
    case Some(k) =>
      match entries[k].target
      case Some(t) =>
        EqualsTransitive(t, entries[k].key, term);
      case None =>
        EqualsSymmetric(entries[k].key, term);
  }

  /** The first time a term is stored, it is recorded as the key and target of a new entry and returned. */
  lemma FirstStore(entries: seq<Entry>, term: Term)
    requires EntriesValid(entries) && term.Valid()
    requires forall i :: 0 <= i < |entries| ==> !entries[i].key.Equals(term)
    ensures GetOrStoreSpec(entries, term) == Stored(entries + [Entry(term, Some(term))], term)
  {
  }

  /** A later store of an equal term returns the recorded target while it is alive, and changes nothing. */
  lemma LaterStore(entries: seq<Entry>, term: Term, i: nat)
    requires EntriesValid(entries) && term.Valid()
    requires i < |entries| && entries[i].key.Equals(term) && entries[i].target.Some?
    ensures GetOrStoreSpec(entries, term) == Stored(entries, entries[i].target.value)
  {
    SameEntryFound(entries, term, i);
  }

  /** Once the recorded target has been collected, the entry is re-pointed at the new term, which is returned. */
  lemma StoreAfterCollect(entries: seq<Entry>, term: Term, i: nat)
    requires EntriesValid(entries) && term.Valid()
    requires i < |entries| && entries[i].key.Equals(term) && entries[i].target.None?
    ensures GetOrStoreSpec(entries, term) == Stored(entries[i := Entry(entries[i].key, Some(term))], term)
  {
    SameEntryFound(entries, term, i);
  }

  /** Because no two keys are equal, the lookup of a term finds the one entry whose key equals it. */
  lemma SameEntryFound(entries: seq<Entry>, term: Term, i: nat)
    requires EntriesValid(entries) && term.Valid()
    requires i < |entries| && entries[i].key.Equals(term)
    ensures Lookup(entries, term) == Some(i)
  {
    var r := Lookup(entries, term);
    if r != Some(i) {
      var k := r.value;
      EqualsSymmetric(entries[k].key, term);
      EqualsTransitive(entries[i].key, term, entries[k].key);
      assert false;
    }
  }

  /** `GetOrStore` is idempotent: storing its result again returns that same instance and changes nothing. */
  lemma GetOrStoreIdempotent(entries: seq<Entry>, term: Term)
    requires EntriesValid(entries) && term.Valid()
    ensures var s := GetOrStoreSpec(entries, term);
      GetOrStoreSpec(s.entries, s.result) == s
  {
    GetOrStoreKeepsValid(entries, term);
    var s := GetOrStoreSpec(entries, term);
    match Lookup(entries, term)
    case None =>
      var n := |entries|;
      assert s.entries[n].key == term;
      SameEntryFound(s.entries, term, n);
    case Some(k) =>
      var t := s.entries[k].target.value;
      EqualsSymmetric(t, s.entries[k].key);
      SameEntryFound(s.entries, t, k);
  }

  /**
   * Without collection every target is its own key, and storing keeps it so: the dictionary's
   * key holds the first term strongly, so its weak target can never actually be collected, and
   * the re-pointing branch is reached only through an explicit `Collect`. The result is then the
   * recorded key.
   */
  lemma TargetsStayKeys(entries: seq<Entry>, term: Term)
    requires EntriesValid(entries) && term.Valid() && TargetsAreKeys(entries)
    ensures TargetsAreKeys(GetOrStoreSpec(entries, term).entries)
    ensures var s := GetOrStoreSpec(entries, term);
      exists i :: 0 <= i < |s.entries| && s.entries[i].key == s.result
  {
    var s := GetOrStoreSpec(entries, term);
    match Lookup(entries, term)
    case None =>
      assert s.entries[|entries|].key == s.result;
    case Some(k) =>
      assert s.entries[k].key == s.result;
  }

  /**
   * Because equality ignores the value, an unannotated String term stored after another one
   * gets the first term back: the value of the second is lost.
   */
  lemma SecondStringGetsFirst(first: Term, second: Term)
    requires first.Valid() && second.Valid()
    requires first.payload.StringValue? && second.payload.StringValue?
    requires first.annotations == [] && second.annotations == []
    ensures GetOrStoreSpec(GetOrStoreSpec([], first).entries, second).result == first
  {
    var entries := [Entry(first, Some(first))];
    FirstStore([], first);
    assert GetOrStoreSpec([], first).entries == entries;
    EqualsReflexive(first);
    assert EntriesValid(entries);
    PayloadIgnored(first, second);
    LaterStore(entries, second, 0);
  }

  /** The null cache never deduplicates: two distinct equal terms come back distinct. */
  lemma NullCacheKeepsInstances(a: Term, b: Term)
    requires a != b
    ensures NullGetOrStore(a) != NullGetOrStore(b)
  {
  }
}
