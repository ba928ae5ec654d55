/**
 * A MongoDB collection seen as a sequence of documents in natural order, and
 * the single-document operations the repositories issue against it:
 * `Find(x => key(x) == id).FirstOrDefault()`, `ReplaceOne` and `DeleteOne`
 * with the same equality filter. Each of them acts on the FIRST document
 * whose key matches.
 */
module Table {
  import opened Core

  /** Some document has key `id`. */
  predicate HasKey<T>(docs: seq<T>, key: T -> string, id: string) {
    exists i | 0 <= i < |docs| :: key(docs[i]) == id
  }

  /** No two documents share a key. */
  ghost predicate UniqueKeys<T>(docs: seq<T>, key: T -> string) {
    forall i, j | 0 <= i < j < |docs| :: key(docs[i]) != key(docs[j])
  }

  /** The position of the first document whose key is `id`. */
  function IndexOf<T>(docs: seq<T>, key: T -> string, id: string): (r: Option<nat>)
    ensures r.None? <==> !HasKey(docs, key, id)
    ensures r.Some? ==> r.value < |docs| && key(docs[r.value]) == id
    ensures r.Some? ==> forall j | 0 <= j < r.value :: key(docs[j]) != id
  {
    if docs == [] then None
    else if key(docs[0]) == id then Some(0)
    else
      match IndexOf(docs[1..], key, id)
      case None => None
      case Some(i) => Some(i + 1)
  }

  /** `Find(x => key(x) == id).FirstOrDefault()`. */
  function FindFirst<T>(docs: seq<T>, key: T -> string, id: string): (r: Option<T>)
    ensures r.None? <==> !HasKey(docs, key, id)
    ensures r.Some? ==> key(r.value) == id
    ensures r.Some? ==> exists i | 0 <= i < |docs| ::
      docs[i] == r.value && forall j | 0 <= j < i :: key(docs[j]) != id
  {
    match IndexOf(docs, key, id)
    case None => None
    case Some(i) => Some(docs[i])
  }

  /** The documents without the one at `i`, the others in their order. */
  function RemoveAt<T>(docs: seq<T>, i: nat): (r: seq<T>)
    requires i < |docs|
    ensures |r| == |docs| - 1
    ensures forall j | 0 <= j < |r| :: r[j] == docs[if j < i then j else j + 1]
  {
    docs[..i] + docs[i + 1..]
  }

  /** `DeleteOne(x => key(x) == id)`: the new collection and whether a document went. */
  function DeleteOne<T>(docs: seq<T>, key: T -> string, id: string): (r: (seq<T>, bool))
    ensures r.1 <==> HasKey(docs, key, id)
    ensures !r.1 ==> r.0 == docs
    ensures r.1 ==> |r.0| == |docs| - 1
    ensures r.1 ==> r.0 == RemoveAt(docs, IndexOf(docs, key, id).value)
  {
    match IndexOf(docs, key, id)
    case None => (docs, false)
    case Some(i) => (RemoveAt(docs, i), true)
  }

  /** With unique keys, the first match is the only match. */
  lemma IndexOfUnique<T>(docs: seq<T>, key: T -> string, i: nat)
    requires UniqueKeys(docs, key) && i < |docs|
    ensures IndexOf(docs, key, key(docs[i])) == Some(i)
  {
  }

  /** A document appended under a new key is found where it was put. */
  lemma IndexOfAppended<T>(docs: seq<T>, key: T -> string, d: T)
    requires !HasKey(docs, key, key(d))
    ensures IndexOf(docs + [d], key, key(d)) == Some(|docs|)
  {
    var s := docs + [d];
    assert key(s[|docs|]) == key(d);
    assert forall j | 0 <= j < |docs| :: s[j] == docs[j];
  }

  /** Deleting by a key that is unique leaves no document with that key. */
  lemma DeleteOneRemovesKey<T>(docs: seq<T>, key: T -> string, id: string)
    requires UniqueKeys(docs, key)
    ensures !HasKey(DeleteOne(docs, key, id).0, key, id)
    ensures UniqueKeys(DeleteOne(docs, key, id).0, key)
  {
  }

  /** Replacing a document by one with the same key keeps the keys unique. */
  lemma ReplaceKeepsUnique<T>(docs: seq<T>, key: T -> string, i: nat, d: T)
    requires UniqueKeys(docs, key) && i < |docs| && key(d) == key(docs[i])
    ensures UniqueKeys(docs[i := d], key)
  {
  }

  /** Appending a document under a new key keeps the keys unique. */
  lemma AppendKeepsUnique<T>(docs: seq<T>, key: T -> string, d: T)
    requires UniqueKeys(docs, key) && !HasKey(docs, key, key(d))
    ensures UniqueKeys(docs + [d], key)
  {
  }
}
