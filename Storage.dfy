/** The vector registry of storage.py: a dictionary from a storage key to a
    similarity index. The text splitter and the similarity search are
    supplied as functions; the embedding service's outcome is supplied per
    call. */
module Storage {
  import opened Text
  import opened Wrappers

  /** A built similarity index, seen only through the chunks it was built from. */
  datatype VectorIndex = VectorIndex(chunks: seq<string>)

  /** What the embedding service does while an index is being built. */
  datatype Embedding = Embedded | EmbeddingError(message: string)

  class VectorStorage {
    /** The text splitter (chunks of 1000 characters with 200 of overlap). */
    const split: string -> seq<string>
    /** Similarity search: its result for the index, the query and the
        `top_k` argument, best first. */
    const search: (VectorIndex, string, int) -> seq<string>
    var vectors: map<string, VectorIndex>

    constructor (split: string -> seq<string>, search: (VectorIndex, string, int) -> seq<string>)
      ensures this.split == split && this.search == search
      ensures vectors == map[]
    {
      this.split := split;
      this.search := search;
      vectors := map[];
    }

    /** The index `new_storage` builds from `text`. */
    function Build(text: string): VectorIndex
    {
      VectorIndex(split(text))
    }

    /** `new_storage(key, text)`: builds an index of the text's chunks and
        stores it under `key`, replacing any earlier one. When the embedding
        service fails, the error propagates and nothing is stored. */
    method NewStorage(key: string, text: string, embedding: Embedding) returns (error: Option<string>)
      modifies this
      ensures embedding.Embedded? ==> error == None && vectors == old(vectors)[key := Build(text)]
      ensures embedding.EmbeddingError? ==> error == Some(embedding.message) && vectors == old(vectors)
      ensures forall k :: k != key ==> (k in vectors <==> k in old(vectors))
      ensures forall k :: k != key && k in vectors ==> vectors[k] == old(vectors)[k]
    {
      var texts := split(text);
      match embedding
      case Embedded =>
        vectors := vectors[key := VectorIndex(texts)];
        error := None;
      case EmbeddingError(message) =>
        error := Some(message);
    }

    /** `retrieve(key, query, top_k)`: nothing for an unknown key; otherwise
        the chunks the search returns, joined with single spaces in the
        order the search gives them. Reads the registry and changes nothing. */
    function Retrieve(key: string, query: string, topK: int): (r: Option<string>)
      reads this
      ensures r.None? <==> key !in vectors
      ensures r.Some? ==> |r.value| == RetrievedLength(search(vectors[key], query, topK))
      ensures r.Some? ==> var docs := search(vectors[key], query, topK);
        (forall i :: 0 <= i < |docs| ==> OccursAt(r.value, docs[i], JoinOffset(docs, " ", i)))
        && (forall i :: 0 <= i < |docs| - 1 ==> OccursAt(r.value, " ", JoinOffset(docs, " ", i) + |docs[i]|))
    {
      if key !in vectors then None
      else
        var docs := search(vectors[key], query, topK);
        JoinPositions(docs, " ");
        Some(Join(docs, " "))
    }

    /** `reset(key)`: removes `key`; does nothing when it is absent. */
    method Reset(key: string)
      modifies this
      ensures vectors == old(vectors) - {key}
      ensures key !in vectors
      ensures key !in old(vectors) ==> vectors == old(vectors)
      ensures forall k :: k != key ==> (k in vectors <==> k in old(vectors))
      ensures forall k :: k != key && k in vectors ==> vectors[k] == old(vectors)[k]
    {
      if key in vectors {
        vectors := vectors - {key};
      }
    }
  }

  /** Length of the chunks joined with single spaces. */
  function RetrievedLength(docs: seq<string>): nat
  {
    if docs == [] then 0 else TotalLength(docs) + |docs| - 1
  }

  /** The retrieved text keeps the search's chunks in the search's order:
      chunk `i` ends, and a space follows it, before chunk `j > i` starts. */
  lemma RetrieveKeepsOrder(s: VectorStorage, key: string, query: string, topK: int, i: nat, j: nat)
    requires key in s.vectors
    requires i < j < |s.search(s.vectors[key], query, topK)|
    ensures var docs := s.search(s.vectors[key], query, topK);
      var text := s.Retrieve(key, query, topK).value;
      && OccursAt(text, docs[i], JoinOffset(docs, " ", i))
      && OccursAt(text, " ", JoinOffset(docs, " ", i) + |docs[i]|)
      && OccursAt(text, docs[j], JoinOffset(docs, " ", j))
      && JoinOffset(docs, " ", i) + |docs[i]| < JoinOffset(docs, " ", j)
  {
    JoinOffsetOrder(s.search(s.vectors[key], query, topK), " ", i, j);
  }

  /** Resetting a key twice leaves the registry as resetting it once. */
  method ResetTwice(s: VectorStorage, key: string)
    modifies s
    ensures s.vectors == old(s.vectors) - {key}
  {
    s.Reset(key);
    s.Reset(key);
  }
}
