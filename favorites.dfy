/**
 * The favorites list: a list of service ids, toggled by the star button,
 * loaded once from browser storage and written back after every change.
 */
module Favorites {
  import opened Wrappers
  import opened Seqs

  /** The storage key the list is kept under. */
  const StorageKey: string := "ai_services_favorites"

  /**
   * The JSON text form of an id list: `encode` stands for `JSON.stringify`,
   * `decode` for `JSON.parse`, with `None` where parsing throws.
   */
  datatype Codec = Codec(encode: seq<int> -> string, decode: string -> Option<seq<int>>)

  /** Decoding an encoded list gives it back, and the encoding is never the empty string. */
  ghost predicate RoundTrips(codec: Codec)
  {
    forall ids :: codec.encode(ids) != "" && codec.decode(codec.encode(ids)) == Some(ids)
  }

  function NotId(id: int): int -> bool
  {
    x => x != id
  }

  /** `favs.filter(favId => favId !== id)`. */
  function Without(favs: seq<int>, id: int): seq<int>
  {
    Keep(favs, NotId(id))
  }

  /** The star button: remove every occurrence of a present id, append an absent one. */
  function Toggle(favs: seq<int>, id: int): (r: seq<int>)
    ensures id in r <==> id !in favs
    ensures forall x | x != id :: x in r <==> x in favs
  {
    if id in favs then Without(favs, id) else favs + [id]
  }

  /**
   * Removing keeps the remaining ids in their order, with every occurrence of
   * each of them; adding puts the id last.
   */
  lemma ToggleOrder(favs: seq<int>, id: int)
    ensures id in favs ==> IsSubsequence(Toggle(favs, id), favs)
    ensures id in favs ==> forall x | x != id :: multiset(Toggle(favs, id))[x] == multiset(favs)[x]
    ensures id !in favs ==> |Toggle(favs, id)| == |favs| + 1
    ensures id !in favs ==> Toggle(favs, id)[..|favs|] == favs && Toggle(favs, id)[|favs|] == id
  {
    if id in favs {
      KeepIsSubsequence(favs, NotId(id));
      KeepCounts(favs, NotId(id));
    }
  }

  /** Toggling twice gives back the same membership. */
  lemma DoubleToggleMembership(favs: seq<int>, id: int)
    ensures forall x :: x in Toggle(Toggle(favs, id), id) <==> x in favs
  {
  }

  /** Toggling an absent id twice gives back exactly the same list. */
  lemma DoubleToggleFromAbsent(favs: seq<int>, id: int)
    requires id !in favs
    ensures Toggle(Toggle(favs, id), id) == favs
  {
    var p := NotId(id);
    assert id in favs + [id];
    KeepAppend(favs, [id], p);
    KeepAll(favs, p);
    assert [id][1..] == [];
  }

  /** Toggling a present id twice removes its occurrences and appends it once at the end. */
  lemma DoubleToggleFromPresentLaw(favs: seq<int>, id: int)
    requires id in favs
    ensures Toggle(Toggle(favs, id), id) == Without(favs, id) + [id]
  {
  }

  /** An instance where the law does not restore the list: only the membership comes back. */
  lemma DoubleToggleFromPresent()
    ensures Toggle(Toggle([1, 2], 1), 1) == [2, 1]
  {
    var p := NotId(1);
    assert [1, 2][1..] == [2];
    assert [2][1..] == [];
    assert Without([1, 2], 1) == [2];
  }

  /** A duplicate-free list stays duplicate-free under any toggle. */
  lemma ToggleKeepsNoDup(favs: seq<int>, id: int)
    requires NoDup(favs)
    ensures NoDup(Toggle(favs, id))
  {
    if id in favs {
      KeepNoDup(favs, NotId(id));
    } else {
      NoDupAppend(favs, id);
    }
  }

  /**
   * The initialiser: a missing key or an empty stored string gives `[]`, and so
   * does text that fails to parse; otherwise the parsed list.
   */
  function Load(store: map<string, string>, codec: Codec): (r: seq<int>)
    ensures r != [] ==> StorageKey in store && codec.decode(store[StorageKey]) == Some(r)
    ensures StorageKey in store && store[StorageKey] == "" ==> r == []
    ensures StorageKey in store && store[StorageKey] != "" && codec.decode(store[StorageKey]).Some?
            ==> Some(r) == codec.decode(store[StorageKey])
  {
    if StorageKey in store && store[StorageKey] != "" then
      match codec.decode(store[StorageKey])
      case Some(ids) => ids
      case None => []
    else []
  }

  /**
   * The persistence effect: a write that succeeds stores the encoded list under
   * the key; a write that fails is ignored and leaves the storage as it was.
   */
  function Save(store: map<string, string>, codec: Codec, ids: seq<int>, writeOk: bool): (r: map<string, string>)
    ensures writeOk ==> StorageKey in r && r[StorageKey] == codec.encode(ids)
    ensures !writeOk ==> r == store
    ensures forall k | k != StorageKey :: (k in r <==> k in store) && (k in store ==> r[k] == store[k])
  {
    if writeOk then store[StorageKey := codec.encode(ids)] else store
  }

  /** Reloading after a successful save gives back the saved list. */
  lemma SaveThenLoad(store: map<string, string>, codec: Codec, ids: seq<int>)
    requires RoundTrips(codec)
    ensures Load(Save(store, codec, ids, true), codec) == ids
  {
    assert codec.encode(ids) != "" && codec.decode(codec.encode(ids)) == Some(ids);
  }
}
