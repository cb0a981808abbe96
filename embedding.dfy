/** The embedder, seen from the document service: an opaque function from
    text to a vector, and the batch form the bulk path uses. */
module Embedding {

  type Vector = seq<real>

  /** The text a document is embedded from: title, one space, content. */
  function EmbeddingText(title: string, content: string): string
  {
    title + " " + content
  }

  /** `encode_batch`: one vector per text, the k-th computed from the k-th text. */
  function EncodeBatch(embed: string -> Vector, texts: seq<string>): (vs: seq<Vector>)
    ensures |vs| == |texts|
    ensures forall k :: 0 <= k < |texts| ==> vs[k] == embed(texts[k])
  {
    if texts == [] then [] else [embed(texts[0])] + EncodeBatch(embed, texts[1..])
  }
}
