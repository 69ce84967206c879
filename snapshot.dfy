/**
 * The subscription handler's mapping from the pushed query snapshot to the
 * message list the view renders: each document becomes `{id: doc.id,
 * ...doc.data()}`, in the order the documents were delivered.
 */
module Snapshot {
  import opened JsValues

  /** One document of a pushed snapshot: its id and the data the SDK decoded for it. */
  datatype DocSnapshot = DocSnapshot(id: string, data: Record)

  /**
   * `{id: doc.id, ...doc.data()}`: the spread comes second, so a data field
   * named `id` overrides the document id.
   */
  function MessageView(doc: DocSnapshot): Record
  {
    map["id" := Str(doc.id)] + doc.data
  }

  /** `snapshot.docs.map(...)`: same length, same order, one view per document. */
  function ViewOfSnapshot(docs: seq<DocSnapshot>): (view: seq<Record>)
    ensures |view| == |docs|
    ensures forall i :: 0 <= i < |docs| ==> view[i].Keys == docs[i].data.Keys + {"id"}
    ensures forall i, k :: 0 <= i < |docs| && k in docs[i].data ==> view[i][k] == docs[i].data[k]
    ensures forall i :: 0 <= i < |docs| && "id" !in docs[i].data ==> view[i]["id"] == Str(docs[i].id)
  {
    if docs == [] then [] else [MessageView(docs[0])] + ViewOfSnapshot(docs[1..])
  }
}
