/** A document collection, the part of the document database the pages use: documents
    stored under string ids. Each call is one step; a call that the database would reject
    reports it by its result. */
module Store {
  import opened Wrappers

  class Collection<T> {
    var docs: map<string, T>

    constructor(initial: map<string, T>)
      ensures docs == initial
    {
      docs := initial;
    }

    /** `getDoc`: the document stored under `id`, if any. */
    function Lookup(id: string): (r: Option<T>)
      reads this
      ensures r.Some? <==> id in docs
      ensures r.Some? ==> r.value == docs[id]
    {
      if id in docs then Some(docs[id]) else None
    }

    /** `setDoc` (and `addDoc` with a generated id): store `v` under `id`, replacing any
        document already there. */
    method Set(id: string, v: T)
      modifies this
      ensures docs == old(docs)[id := v]
    {
      docs := docs[id := v];
    }

    /** `updateDoc`: replace the document under `id`; fails, changing nothing, when there is
        no such document. */
    method Update(id: string, v: T) returns (ok: bool)
      modifies this
      ensures ok <==> id in old(docs)
      ensures ok ==> docs == old(docs)[id := v]
      ensures !ok ==> docs == old(docs)
    {
      ok := id in docs;
      if ok {
        docs := docs[id := v];
      }
    }
  }
}
