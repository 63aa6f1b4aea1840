/**
 * The document database as the source uses it: documents addressed by
 * (collection, id); `setDoc` replaces a document, `updateDoc` merges
 * top-level fields into an existing one (and fails when it is missing),
 * and the `increment(n)` sentinel adds to a numeric field.
 */
module DocStore {
  import opened Wrappers
  import opened JsValue

  datatype DocKey = DocKey(collection: string, id: string)

  /** One field of an `updateDoc` payload: a plain value or `increment(amount)`. */
  datatype FieldWrite = Put(value: Value) | Increment(amount: real)

  /** The value a field holds after a write; an increment on a missing or non-numeric field sets it to `amount`. */
  function Written(current: Option<Value>, w: FieldWrite): Value {
    match w
    case Put(v) => v
    case Increment(amount) => if IsNumber(current) then Num(current.value.n + amount) else Num(amount)
  }

  /** The document after `updateDoc(ref, writes)`. */
  function Merge(d: Doc, writes: map<string, FieldWrite>): (r: Doc)
    ensures r.Keys == d.Keys + writes.Keys
    ensures forall f :: f in writes ==> r[f] == Written(Get(d, f), writes[f])
    ensures forall f :: f in d && f !in writes ==> r[f] == d[f]
  {
    map f | f in d.Keys + writes.Keys :: if f in writes then Written(Get(d, f), writes[f]) else d[f]
  }

  /** Text of the error `updateDoc` raises for a missing document. */
  function NoDocumentToUpdate(k: DocKey): string {
    "No document to update: " + k.collection + "/" + k.id
  }

  class Db {
    var docs: map<DocKey, Doc>

    constructor ()
      ensures docs == map[]
    {
      docs := map[];
    }

    /** `getDoc(ref)`: the stored document when it exists (`snap.exists() ? snap.data() : null`). */
    function Read(k: DocKey): (snapshot: Option<Doc>)
      reads this
      ensures snapshot.Some? <==> k in docs
      ensures snapshot.Some? ==> snapshot.value == docs[k]
    {
      if k in docs then Some(docs[k]) else None
    }

    /** `setDoc(ref, d)`. */
    method SetDoc(k: DocKey, d: Doc)
      modifies this
      ensures docs == old(docs)[k := d]
    {
      docs := docs[k := d];
    }

    /** `updateDoc(ref, writes)`. */
    method UpdateDoc(k: DocKey, writes: map<string, FieldWrite>) returns (r: Outcome<string>)
      modifies this
      ensures r == (if k in old(docs) then Pass else Fail(NoDocumentToUpdate(k)))
      ensures docs == if k in old(docs) then old(docs)[k := Merge(old(docs)[k], writes)] else old(docs)
    {
      if k !in docs {
        return Fail(NoDocumentToUpdate(k));
      }
      docs := docs[k := Merge(docs[k], writes)];
      r := Pass;
    }
  }
}
