/** The per-user document registry of main.py and the handlers that act on
    it together with the conversation and vector registries. Telegram is
    left out: a handler receives the sender's numeric id and whatever the
    download and text extraction produced, and returns the reply text. */
module Bot {
  import opened Wrappers
  import opened Text
  import Decimal
  import Gpt
  import Storage

  /** One uploaded document: `{'name': filename, 'text': raw_text}`. */
  datatype Document = Document(name: string, text: string)

  /** `user_documents`: user key, then document id, then the record. */
  type Registry = map<string, map<nat, Document>>

  const BookKey := "book"
  // Dafny does not look inside a long string literal, so the two replies
  // whose first character a proof compares are written as two literals.
  const NoDocumentsReply := "No documents uploaded. " + "Please upload a document first."
  const MenuHeader := "Please choose a document by number:"
  const InvalidSelectionReply := "Invalid selection. " + "Use /select to see available documents."
  const FailedDocumentReply := "Failed to process the document. Please ensure it is a valid file."
  const ResetReply := "Your data has been reset. Start again by uploading a new document."

  function ProcessedReply(filename: string): string
  {
    "Document '" + filename + "' processed! Use /select to choose a document for queries."
  }

  function SelectedReply(name: string): string
  {
    "You selected '" + name + "'. Now you can ask questions about this document."
  }

  /** `str(message.from_user.id)`: the key a user has in all three registries. */
  function UserKey(fromId: nat): string
  {
    Decimal.Format(fromId)
  }

  /** `f"{user_id}_{doc_id}"`: the storage key of one uploaded document. */
  function DocKey(user: string, docId: nat): string
  {
    user + "_" + Decimal.Format(docId)
  }

  /** No user key is the key of the shared book. */
  lemma UserKeyIsNotBook(fromId: nat)
    ensures UserKey(fromId) != BookKey
  {
    assert Decimal.IsDigit(UserKey(fromId)[0]);
  }

  /** No document key is the key of the shared book. */
  lemma DocKeyIsNotBook(fromId: nat, docId: nat)
    ensures DocKey(UserKey(fromId), docId) != BookKey
  {
    assert DocKey(UserKey(fromId), docId)[0] == UserKey(fromId)[0];
    assert Decimal.IsDigit(UserKey(fromId)[0]);
  }

  /** No document key is a user key, of that user or any other. */
  lemma DocKeyIsNotUserKey(fromId: nat, docId: nat, otherId: nat)
    ensures DocKey(UserKey(fromId), docId) != UserKey(otherId)
  {
    var u := UserKey(fromId);
    assert DocKey(u, docId)[|u|] == '_';
    if |DocKey(u, docId)| == |UserKey(otherId)| {
      assert Decimal.IsDigit(UserKey(otherId)[|u|]);
    }
  }

  /** Distinct (user, document) pairs have distinct storage keys. */
  lemma DocKeyInjective(a: nat, i: nat, b: nat, j: nat)
    requires DocKey(UserKey(a), i) == DocKey(UserKey(b), j)
    ensures a == b && i == j
  {
    var u, v := UserKey(a), UserKey(b);
    var k := DocKey(u, i);
    assert k[|u|] == '_' && k == DocKey(v, j) && k[|v|] == '_';
    assert u == k[..|u|] == v;
    Decimal.FormatInjective(a, b);
    assert Decimal.Format(i) == k[|u| + 1..] == Decimal.Format(j);
    Decimal.FormatInjective(i, j);
  }

  /** The ids of a user's documents are exactly 0, 1, ..., n - 1. */
  ghost predicate DenseIds(docs: map<nat, Document>)
  {
    forall i: nat :: i in docs <==> i < |docs|
  }

  /** The invariant every handler keeps. */
  ghost predicate WellFormed(registry: Registry)
  {
    forall u :: u in registry ==> DenseIds(registry[u])
  }

  /** `user_documents.get(user_id, {})`. */
  function DocumentsOf(registry: Registry, user: string): map<nat, Document>
  {
    if user in registry then registry[user] else map[]
  }

  /** Storing a document under id "number of documents" adds a fresh id and
      keeps the ids exactly 0, 1, ..., n. */
  lemma AddDocument(docs: map<nat, Document>, d: Document)
    requires DenseIds(docs)
    ensures |docs| !in docs
    ensures |docs[|docs| := d]| == |docs| + 1
    ensures DenseIds(docs[|docs| := d])
  {
    var n := |docs|;
    assert n !in docs;
    var docs' := docs[n := d];
    assert docs'.Keys == docs.Keys + {n};
    assert |docs'| == n + 1;
    forall i: nat
      ensures i in docs' <==> i < n + 1
    {
      assert i in docs' <==> i in docs || i == n;
    }
  }

  /** The line `list_documents` shows for document `i`: its 1-based number
      and its id (not its file name). */
  function Line(i: nat): string
  {
    Decimal.Format(i + 1) + ": " + Decimal.Format(i)
  }

  /** The lines for the documents 0, 1, ..., n - 1, in order. */
  function Lines(n: nat): (r: seq<string>)
    ensures |r| == n && forall i :: 0 <= i < n ==> r[i] == Line(i)
    ensures forall i :: 0 <= i < n ==> '\n' !in r[i]
  {
    if n == 0 then [] else Lines(n - 1) + [Line(n - 1)]
  }

  /** `list_documents(user)`: the user's documents, one line each, joined by
      newlines; the empty string when the user has none. The per-user table
      only ever gains the key "number of documents", so its insertion order
      is the order of its ids. */
  function ListDocuments(registry: Registry, user: string): (r: string)
    requires user in registry ==> DenseIds(registry[user])
    ensures r == "" <==> |DocumentsOf(registry, user)| == 0
    ensures r != "" ==> SplitOn(r, '\n') == Lines(|DocumentsOf(registry, user)|)
  {
    var lines := Lines(|DocumentsOf(registry, user)|);
    if |lines| == 0 then ""
    else
      SplitJoin(lines, '\n');
      Join(lines, "\n")
  }

  /** `select_document`: the menu, or a refusal when the user has no documents. */
  function SelectDocument(registry: Registry, user: string): (reply: string)
    requires user in registry ==> DenseIds(registry[user])
    ensures reply == NoDocumentsReply <==> |DocumentsOf(registry, user)| == 0
    ensures reply != NoDocumentsReply ==>
      SplitOn(reply, '\n') == [MenuHeader] + Lines(|DocumentsOf(registry, user)|)
  {
    if user !in registry || |registry[user]| == 0 then NoDocumentsReply
    else
      var list := ListDocuments(registry, user);
      var reply := MenuHeader + "\n" + list;
      SplitOnFirst(MenuHeader, '\n', list);
      assert reply[0] == 'P' && NoDocumentsReply[0] == 'N';
      reply
  }

  /** `process_selection` for a digit message `text`: the number picks the
      document with id `int(text) - 1`; anything else is an invalid
      selection. Nothing is stored. */
  function ProcessSelection(registry: Registry, user: string, text: string): (reply: string)
    requires Decimal.IsDigitString(text)
    ensures var index := Decimal.Parse(text) - 1;
      reply != InvalidSelectionReply <==> user in registry && index >= 0 && index in registry[user]
    ensures var index := Decimal.Parse(text) - 1;
      user in registry && index >= 0 && index in registry[user] ==> reply == SelectedReply(registry[user][index].name)
  {
    var index := Decimal.Parse(text) - 1;
    if user in registry && index >= 0 && index in registry[user] then
      var reply := SelectedReply(registry[user][index].name);
      assert reply[0] == 'Y' && InvalidSelectionReply[0] == 'I';
      reply
    else InvalidSelectionReply
  }

  /** The number shown on a line of the menu selects that line's document. */
  lemma SelectListedDocument(registry: Registry, user: string, i: nat)
    requires user in registry && DenseIds(registry[user]) && i < |registry[user]|
    ensures Line(i)[..|Decimal.Format(i + 1)|] == Decimal.Format(i + 1)
    ensures ProcessSelection(registry, user, Decimal.Format(i + 1)) == SelectedReply(registry[user][i].name)
  {
    Decimal.ParseFormat(i + 1);
  }

  /** "0" never selects anything. */
  lemma ZeroIsInvalid(registry: Registry, user: string)
    ensures ProcessSelection(registry, user, "0") == InvalidSelectionReply
  {
    assert Decimal.Parse("0") == 0;
  }

  /** Leading zeros do not change the selection, as with `int()`. */
  lemma LeadingZeroSelection(registry: Registry, user: string, text: string)
    requires Decimal.IsDigitString(text)
    ensures Decimal.IsDigitString("0" + text)
    ensures ProcessSelection(registry, user, "0" + text) == ProcessSelection(registry, user, text)
  {
    Decimal.ParseLeadingZero(text);
  }

  /** The module-level state of main.py: the document registry and the two
      shared registries it drives. */
  class Bot {
    const chat: Gpt.GPT
    const storage: Storage.VectorStorage
    var userDocuments: Registry

    /** The ids of every user's documents are dense, and the only storage
        keys are the book's and the documents' `"{user}_{id}"`. */
    ghost predicate Valid()
      reads this, storage
    {
      && WellFormed(userDocuments)
      && forall k :: k in storage.vectors ==>
           k == BookKey || exists a: nat, i: nat :: k == DocKey(UserKey(a), i)
    }

    /** Start-up: `GPT(key)` with its default delay, an empty vector
        registry, the shared book indexed under "book" when its text could
        be read and indexed (a failure is logged and swallowed), and no
        documents. `book` is the book's extracted text, if any. */
    constructor (split: string -> seq<string>, search: (Storage.VectorIndex, string, int) -> seq<string>,
                 book: Option<string>, bookEmbedding: Storage.Embedding)
      ensures Valid() && fresh(chat) && fresh(storage)
      ensures userDocuments == map[]
      ensures chat.messages == map[] && chat.retryDelay == Gpt.InitialDelay
      ensures storage.split == split && storage.search == search
      ensures storage.vectors ==
        if book.Some? && bookEmbedding.Embedded? then map[BookKey := storage.Build(book.value)] else map[]
    {
      chat := new Gpt.GPT(Gpt.InitialDelay);
      var s := new Storage.VectorStorage(split, search);
      if book.Some? {
        var _ := s.NewStorage(BookKey, book.value, bookEmbedding);
      }
      storage := s;
      userDocuments := map[];
    }

    /** `handle_document`. `fileText` is what downloading and extracting the
        file gave (nothing when either raised); `embedding` is what the
        embedding service does while indexing. The record is committed under
        id "number of documents the user has" before the index is built, so
        an indexing failure leaves the record in place. */
    method HandleDocument(fromId: nat, filename: string, fileText: Option<string>, embedding: Storage.Embedding)
      returns (reply: string)
      requires Valid()
      modifies this, storage
      ensures Valid()
      ensures var u := UserKey(fromId);
              var docs := DocumentsOf(old(userDocuments), u);
              match fileText
              case None =>
                && userDocuments == old(userDocuments)
                && storage.vectors == old(storage.vectors)
                && reply == FailedDocumentReply
              case Some(text) =>
                && |docs| !in docs
                && userDocuments == old(userDocuments)[u := docs[|docs| := Document(filename, text)]]
                && (embedding.Embedded? ==>
                      storage.vectors == old(storage.vectors)[DocKey(u, |docs|) := storage.Build(text)]
                      && reply == ProcessedReply(filename))
                && (embedding.EmbeddingError? ==>
                      storage.vectors == old(storage.vectors) && reply == FailedDocumentReply)
    {
      var u := UserKey(fromId);
      match fileText {
        case None =>
          reply := FailedDocumentReply;
        case Some(rawText) =>
          var docs := DocumentsOf(userDocuments, u);
          var docId := |docs|;
          AddDocument(docs, Document(filename, rawText));
          // Creating an empty table for a new user and then storing into it
          // ends in this one update.
          userDocuments :=userDocuments[u := docs[docId := Document(filename, rawText)]];
          var error := storage.NewStorage(DocKey(u, docId), rawText, embedding);
          assert DocKey(u, docId) == DocKey(UserKey(fromId), docId);
          if error.Some? {
            reply := FailedDocumentReply;
          } else {
            reply := ProcessedReply(filename);
          }
      }
    }

    /** `reset_user_data`: resets the user's conversation (and the shared
        delay), resets the vector entry whose key is the user key itself, and
        drops the user's documents. No index is ever stored under a bare user
        key, so the vector registry is left exactly as it was: the indexes
        under the user's document keys, and the book's, stay. */
    method ResetUserData(fromId: nat) returns (reply: string)
      requires Valid()
      modifies this, chat, storage
      ensures Valid()
      ensures var u := UserKey(fromId);
              && userDocuments == old(userDocuments) - {u}
              && chat.messages == old(chat.messages)[u := [Gpt.System(Gpt.ResetPersona)]]
              && chat.retryDelay == Gpt.InitialDelay
              && storage.vectors == old(storage.vectors) - {u}
              && reply == ResetReply
      ensures storage.vectors == old(storage.vectors)
      ensures forall i: nat :: DocKey(UserKey(fromId), i) in old(storage.vectors) ==>
                DocKey(UserKey(fromId), i) in storage.vectors &&
                storage.vectors[DocKey(UserKey(fromId), i)] == old(storage.vectors)[DocKey(UserKey(fromId), i)]
      ensures BookKey in old(storage.vectors) ==>
                BookKey in storage.vectors && storage.vectors[BookKey] == old(storage.vectors)[BookKey]
    {
      var u := UserKey(fromId);
      forall a: nat, i: nat
        ensures DocKey(UserKey(a), i) != u
      {
        DocKeyIsNotUserKey(a, i, fromId);
      }
      UserKeyIsNotBook(fromId);
      assert u !in storage.vectors;
      chat.Reset(u);
      storage.Reset(u);
      userDocuments := userDocuments - {u};
      reply := ResetReply;
    }
  }
}
