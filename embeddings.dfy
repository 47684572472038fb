/** The query embedding (services/embeddor/embeddings.py): the text is
    normalised once when the object is built and that text is what the model
    embeds. The model itself is a function value. */
module Embeddings {

  /** A point in the embedding space (1536 floats for the model used). */
  type Vector = seq<real>

  /** `text.replace("\n", " ")`. */
  function Normalize(text: string): (r: string)
    ensures |r| == |text|
    ensures forall i :: 0 <= i < |text| ==> r[i] == (if text[i] == '\n' then ' ' else text[i])
    ensures '\n' !in r
  {
    if text == [] then ""
    else [if text[0] == '\n' then ' ' else text[0]] + Normalize(text[1..])
  }

  /** Normalising normalised text changes nothing. */
  lemma NormalizeIdempotent(text: string)
    ensures Normalize(Normalize(text)) == Normalize(text)
  {
  }

  /** Text without newlines is already normalised. */
  lemma NormalizeFixesNewlineFree(text: string)
    requires '\n' !in text
    ensures Normalize(text) == text
  {
  }

  datatype Embedding = Embedding(text: string, embedQuery: string -> Vector)
  {
    /** `text_embedding`: the model applied to the stored (normalised) text. */
    function TextEmbedding(): Vector
    {
      embedQuery(text)
    }
  }

  /** `Embedding(text=..., embedding_model=...)`. */
  function NewEmbedding(text: string, embedQuery: string -> Vector): (e: Embedding)
    ensures '\n' !in e.text && |e.text| == |text|
    ensures e.TextEmbedding() == embedQuery(Normalize(text))
  {
    Embedding(Normalize(text), embedQuery)
  }
}
