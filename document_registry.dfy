/** The list updaters the chat page applies to its document registry: the optimistic append of an
    upload, the status change by client id (`prev.map`), the optimistic removal by file name
    (`prev.filter`) and the mapping of the backend's list to sidebar entries (`data.map`). */
module DocumentRegistry {
  import opened ChatTypes

  /** One row of the backend's document list (`GET /documents/`). */
  datatype ServerDocument = ServerDocument(id: int, filename: string)

  /** Some entry of `docs` carries client id `id`. */
  predicate HasId(docs: seq<DocumentItem>, id: int) {
    exists i :: 0 <= i < |docs| && docs[i].id == id
  }

  /** Every entry whose id is `id` gets status `status`; the others, and the order, are kept. */
  function SetStatusById(docs: seq<DocumentItem>, id: int, status: DocStatus): (r: seq<DocumentItem>)
    ensures |r| == |docs|
    ensures forall i :: 0 <= i < |docs| ==>
      r[i] == if docs[i].id == id then docs[i].(status := status) else docs[i]
  {
    if docs == [] then []
    else
      var head := if docs[0].id == id then docs[0].(status := status) else docs[0];
      [head] + SetStatusById(docs[1..], id, status)
  }

  /** What an upload promises about the registry once it has settled: the entries that were there
      before keep their place and change only where they share the upload's id, and the upload's
      own entry is last with its final status. */
  predicate Settled(before: seq<DocumentItem>, id: int, name: string, status: DocStatus, after: seq<DocumentItem>) {
    |after| == |before| + 1 &&
    after[|before|] == DocumentItem(id, name, status) &&
    forall i :: 0 <= i < |before| ==>
      after[i] == if before[i].id == id then before[i].(status := status) else before[i]
  }

  /** Appending a `processing` entry and later moving every entry with its id to a final status
      settles the upload. */
  lemma SettleAfterAppend(docs: seq<DocumentItem>, id: int, name: string, status: DocStatus)
    ensures Settled(docs, id, name, status, SetStatusById(docs + [DocumentItem(id, name, Processing)], id, status))
  {
  }

  /** When the upload's id is new to the registry, nothing but its own entry changes. */
  lemma SettledWithFreshId(before: seq<DocumentItem>, id: int, name: string, status: DocStatus, after: seq<DocumentItem>)
    requires Settled(before, id, name, status, after)
    requires !HasId(before, id)
    ensures after == before + [DocumentItem(id, name, status)]
  {
  }

  /** Every entry whose name is `name` is dropped; the rest keep their order. */
  function RemoveByName(docs: seq<DocumentItem>, name: string): (r: seq<DocumentItem>)
    ensures |r| <= |docs|
    ensures forall i :: 0 <= i < |r| ==> r[i].name != name
    ensures forall d :: d in r <==> d in docs && d.name != name
  {
    if docs == [] then []
    else if docs[0].name == name then RemoveByName(docs[1..], name)
    else [docs[0]] + RemoveByName(docs[1..], name)
  }

  /** Removing by name distributes over concatenation, so the survivors stay in their original order. */
  lemma {:induction false} RemoveByNameAppend(a: seq<DocumentItem>, b: seq<DocumentItem>, name: string)
    ensures RemoveByName(a + b, name) == RemoveByName(a, name) + RemoveByName(b, name)
  {
    if a == [] {
      assert a + b == b;
    } else {
      assert (a + b)[0] == a[0];
      assert (a + b)[1..] == a[1..] + b;
      RemoveByNameAppend(a[1..], b, name);
    }
  }

  /** A registry without an entry of that name is left as it is. */
  lemma {:induction false} RemoveByNameAbsent(docs: seq<DocumentItem>, name: string)
    requires forall i :: 0 <= i < |docs| ==> docs[i].name != name
    ensures RemoveByName(docs, name) == docs
  {
    if docs != [] {
      RemoveByNameAbsent(docs[1..], name);
    }
  }

  /** The backend's list as sidebar entries: same length and order, each marked `indexed`. */
  function FromServer(data: seq<ServerDocument>): (r: seq<DocumentItem>)
    ensures |r| == |data|
    ensures forall i :: 0 <= i < |data| ==> r[i] == DocumentItem(data[i].id, data[i].filename, Indexed)
  {
    if data == [] then []
    else [DocumentItem(data[0].id, data[0].filename, Indexed)] + FromServer(data[1..])
  }
}
