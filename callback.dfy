/**
 * The callback registry of one declared callback interface (CB_DEFINE): a fixed
 * array of subscriptions, each pairing a callback body with the dispatch function
 * that marshals it onto a worker thread. Its implementation is not part of this
 * model, and Register and Unregister rest on these assumptions about it:
 * registration fails when the pair is already present or no entry is free, and
 * otherwise fills the first free entry; unregistration clears the first matching
 * entry and is a no-op when the pair is absent.
 */
module Callback {
  import opened Wrappers

  /** Identity of a non-null function pointer (a callback body or a dispatch function). */
  type FuncPtr = nat

  /** One registry entry: free (a NULL cbFunc), or a registered pair. */
  datatype CbInfo = Empty | Registered(cbFunc: FuncPtr, cbDispatchFunc: FuncPtr)

  /** Outcome of CB_Register: the new entries and the boolean the caller receives. */
  datatype Registration = Registration(entries: seq<CbInfo>, ok: bool)

  /** No pair is registered twice. */
  ghost predicate Unique(entries: seq<CbInfo>)
  {
    forall i, j :: 0 <= i < j < |entries| && entries[i].Registered? ==> entries[i] != entries[j]
  }

  /** The first index holding x, if any. */
  function Find(entries: seq<CbInfo>, x: CbInfo): (r: Option<nat>)
    ensures r.None? <==> x !in entries
    ensures r.Some? ==> r.value < |entries| && entries[r.value] == x && x !in entries[..r.value]
  {
    if |entries| == 0 then None
    else if entries[0] == x then Some(0)
    else
      match Find(entries[1..], x)
      case None => None
      case Some(i) =>
        assert entries[..i + 1] == [entries[0]] + entries[1..][..i];
        Some(i + 1)
  }

  /** CB_Register for one interface whose capacity is |entries|. */
  function Register(entries: seq<CbInfo>, cbFunc: FuncPtr, cbDispatchFunc: FuncPtr): (r: Registration)
    ensures |r.entries| == |entries|
    ensures r.ok <==> Registered(cbFunc, cbDispatchFunc) !in entries && Empty in entries
    ensures !r.ok ==> r.entries == entries
    ensures r.ok ==> Registered(cbFunc, cbDispatchFunc) in r.entries
    ensures forall i :: 0 <= i < |entries| && entries[i].Registered? ==> r.entries[i] == entries[i]
  {
    var pair := Registered(cbFunc, cbDispatchFunc);
    if pair in entries then Registration(entries, false)
    else
      match Find(entries, Empty)
      case None => Registration(entries, false)
      case Some(i) =>
        assert entries[i := pair][i] == pair;
        Registration(entries[i := pair], true)
  }

  /** CB_Unregister for one interface. */
  function Unregister(entries: seq<CbInfo>, cbFunc: FuncPtr, cbDispatchFunc: FuncPtr): (r: seq<CbInfo>)
    ensures |r| == |entries|
    ensures Registered(cbFunc, cbDispatchFunc) !in entries ==> r == entries
    ensures forall i :: 0 <= i < |entries| && entries[i] != Registered(cbFunc, cbDispatchFunc) ==> r[i] == entries[i]
    ensures var first := Find(entries, Registered(cbFunc, cbDispatchFunc));
      first.Some? ==> r[first.value] == Empty && forall i :: 0 <= i < |entries| && i != first.value ==> r[i] == entries[i]
    ensures Unique(entries) ==> Registered(cbFunc, cbDispatchFunc) !in r
  {
    match Find(entries, Registered(cbFunc, cbDispatchFunc))
    case None => entries
    case Some(i) => entries[i := Empty]
  }

  /** The number of free entries. */
  function FreeCount(entries: seq<CbInfo>): nat
  {
    if entries == [] then 0 else (if entries[0] == Empty then 1 else 0) + FreeCount(entries[1..])
  }

  lemma {:induction false} FreeCountUpdate(entries: seq<CbInfo>, i: nat, x: CbInfo)
    requires i < |entries| && entries[i] == Empty && x != Empty
    ensures FreeCount(entries[i := x]) + 1 == FreeCount(entries)
  {
    if i > 0 {
      FreeCountUpdate(entries[1..], i - 1, x);
      assert entries[i := x][1..] == entries[1..][i - 1 := x];
    }
  }

  lemma {:induction false} FreeCountZero(entries: seq<CbInfo>)
    ensures FreeCount(entries) == 0 <==> Empty !in entries
  {
    if entries != [] {
      FreeCountZero(entries[1..]);
      assert entries == [entries[0]] + entries[1..];
    }
  }

  /** Registration keeps every pair unique. */
  lemma RegisterKeepsUnique(entries: seq<CbInfo>, cbFunc: FuncPtr, cbDispatchFunc: FuncPtr)
    requires Unique(entries)
    ensures Unique(Register(entries, cbFunc, cbDispatchFunc).entries)
  {
    var r := Register(entries, cbFunc, cbDispatchFunc);
    if r.ok {
      var i := Find(entries, Empty).value;
      assert r.entries == entries[i := Registered(cbFunc, cbDispatchFunc)];
    }
  }

  /** Unregistration keeps every pair unique. */
  lemma UnregisterKeepsUnique(entries: seq<CbInfo>, cbFunc: FuncPtr, cbDispatchFunc: FuncPtr)
    requires Unique(entries)
    ensures Unique(Unregister(entries, cbFunc, cbDispatchFunc))
  {
  }

  /**
   * A successful registration uses exactly one free entry, and a registry with
   * no free entry left rejects every registration.
   */
  lemma RegisterUsesOneFreeEntry(entries: seq<CbInfo>, cbFunc: FuncPtr, cbDispatchFunc: FuncPtr)
    ensures var r := Register(entries, cbFunc, cbDispatchFunc);
      (r.ok ==> FreeCount(r.entries) + 1 == FreeCount(entries))
      && (FreeCount(entries) == 0 ==> !r.ok)
  {
    var r := Register(entries, cbFunc, cbDispatchFunc);
    FreeCountZero(entries);
    if r.ok {
      FreeCountUpdate(entries, Find(entries, Empty).value, Registered(cbFunc, cbDispatchFunc));
    }
  }

  /** A successful registration puts the pair at the first entry that was free. */
  lemma RegisterFillsFirstFree(entries: seq<CbInfo>, cbFunc: FuncPtr, cbDispatchFunc: FuncPtr)
    requires Register(entries, cbFunc, cbDispatchFunc).ok
    ensures Find(Register(entries, cbFunc, cbDispatchFunc).entries, Registered(cbFunc, cbDispatchFunc))
         == Find(entries, Empty)
  {
    var pair := Registered(cbFunc, cbDispatchFunc);
    var i := Find(entries, Empty).value;
    var after := entries[i := pair];
    assert after[..i] == entries[..i];
    FindFirst(after, pair, i);
  }

  /** x at index i with no earlier occurrence is what Find returns. */
  lemma {:induction false} FindFirst(entries: seq<CbInfo>, x: CbInfo, i: nat)
    requires i < |entries| && entries[i] == x && x !in entries[..i]
    ensures Find(entries, x) == Some(i)
  {
    if i > 0 {
      assert entries[0] in entries[..i];
      assert entries[1..][..i - 1] == entries[1..i];
      assert forall y :: y in entries[1..i] ==> y in entries[..i];
      FindFirst(entries[1..], x, i - 1);
    }
  }

  /** Unregistering a registered pair gives its entry back: one more entry is free. */
  lemma UnregisterFreesOneEntry(entries: seq<CbInfo>, cbFunc: FuncPtr, cbDispatchFunc: FuncPtr)
    requires Registered(cbFunc, cbDispatchFunc) in entries
    ensures FreeCount(Unregister(entries, cbFunc, cbDispatchFunc)) == FreeCount(entries) + 1
  {
    var r := Unregister(entries, cbFunc, cbDispatchFunc);
    var i := Find(entries, Registered(cbFunc, cbDispatchFunc)).value;
    assert r[i := entries[i]] == entries;
    FreeCountUpdate(r, i, entries[i]);
  }

  /** Unregistering a pair right after registering it restores the registry. */
  lemma RegisterThenUnregister(entries: seq<CbInfo>, cbFunc: FuncPtr, cbDispatchFunc: FuncPtr)
    requires Register(entries, cbFunc, cbDispatchFunc).ok
    ensures Unregister(Register(entries, cbFunc, cbDispatchFunc).entries, cbFunc, cbDispatchFunc) == entries
  {
    RegisterFillsFirstFree(entries, cbFunc, cbDispatchFunc);
    var i := Find(entries, Empty).value;
    assert entries[i := Registered(cbFunc, cbDispatchFunc)][i := Empty] == entries;
  }
}
