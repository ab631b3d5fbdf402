/** Runs of the handlers that show, from their contracts alone, how the
    registries behave over several events. */
module Scenarios {
  import opened Wrappers
  import Decimal
  import Text
  import Gpt
  import Storage
  import opened Bot

  /** One successful upload of `d` by `fromId`, seen from the registry
      alone: the user's table gains `d` under the next id. */
  method Upload(bot: Bot, fromId: nat, d: Document)
    requires bot.Valid()
    modifies bot, bot.storage
    ensures bot.Valid()
    ensures var docs := DocumentsOf(old(bot.userDocuments), UserKey(fromId));
            DocumentsOf(bot.userDocuments, UserKey(fromId)) == docs[|docs| := d]
  {
    var reply := bot.HandleDocument(fromId, d.name, Some(d.text), Storage.Embedded);
  }

  /** `/reset` by `fromId`, seen from the registry alone: the user has no
      documents left. */
  method Clear(bot: Bot, fromId: nat)
    requires bot.Valid()
    modifies bot, bot.chat, bot.storage
    ensures bot.Valid()
    ensures DocumentsOf(bot.userDocuments, UserKey(fromId)) == map[]
  {
    var reply := bot.ResetUserData(fromId);
  }

  /** Upload, upload, reset, upload: the ids are 0, then 0 and 1, then none,
      then 0 again. `ids` are the user's document ids after each step. */
  method UploadUploadResetUpload(split: string -> seq<string>,
                                 search: (Storage.VectorIndex, string, int) -> seq<string>,
                                 fromId: nat, first: Document, second: Document, third: Document)
    returns (ids: seq<set<nat>>)
    ensures ids == [{0}, {0, 1}, {}, {0}]
  {
    var bot := new Bot(split, search, None, Storage.Embedded);
    var u := UserKey(fromId);
    Upload(bot, fromId, first);
    var d0 := DocumentsOf(bot.userDocuments, u);
    assert d0 == map[0 := first];
    assert d0.Keys == {0};
    Upload(bot, fromId, second);
    var d1 := DocumentsOf(bot.userDocuments, u);
    assert d1 == map[0 := first, 1 := second];
    assert d1.Keys == {0, 1};
    Clear(bot, fromId);
    var d2 := DocumentsOf(bot.userDocuments, u);
    assert d2 == map[];
    Upload(bot, fromId, third);
    var d3 := DocumentsOf(bot.userDocuments, u);
    assert d3 == map[0 := third];
    assert d3.Keys == {0};
    ids := [d0.Keys, d1.Keys, d2.Keys, d3.Keys];
  }

  /** A user uploads "notes.pdf": the list shows "1: 0", "1" selects it,
      "6" is refused. */
  method NotesScenario(split: string -> seq<string>,
                       search: (Storage.VectorIndex, string, int) -> seq<string>,
                       fromId: nat, text: string)
    returns (listed: string, chosen: string, refused: string)
    ensures listed == "1: 0"
    ensures chosen == SelectedReply("notes.pdf")
    ensures refused == InvalidSelectionReply
  {
    var bot := new Bot(split, search, None, Storage.Embedded);
    Upload(bot, fromId, Document("notes.pdf", text));
    var u := UserKey(fromId);
    assert bot.userDocuments[u] == map[0 := Document("notes.pdf", text)];
    OneDocumentList(bot.userDocuments, u, Document("notes.pdf", text));
    OneDocumentChosen(bot.userDocuments, u, Document("notes.pdf", text));
    OneDocumentRefused(bot.userDocuments, u, Document("notes.pdf", text));
    listed := ListDocuments(bot.userDocuments, u);
    chosen := ProcessSelection(bot.userDocuments, u, "1");
    refused := ProcessSelection(bot.userDocuments, u, "6");
  }

  /** With one document the list is the single line "1: 0". */
  lemma OneDocumentList(registry: Registry, user: string, d: Document)
    requires user in registry && registry[user] == map[0 := d]
    ensures ListDocuments(registry, user) == "1: 0"
  {
    assert Lines(1) == [Line(0)];
    assert Decimal.Format(1) == "1" && Decimal.Format(0) == "0";
  }

  /** With one document "1" selects it. */
  lemma OneDocumentChosen(registry: Registry, user: string, d: Document)
    requires user in registry && registry[user] == map[0 := d]
    ensures ProcessSelection(registry, user, "1") == SelectedReply(d.name)
  {
    assert Decimal.Parse("1") == 1;
  }

  /** With one document "6" is refused. */
  lemma OneDocumentRefused(registry: Registry, user: string, d: Document)
    requires user in registry && registry[user] == map[0 := d]
    ensures ProcessSelection(registry, user, "6") == InvalidSelectionReply
  {
    assert Decimal.Parse("6") == 6;
  }

  /** When indexing fails the upload is reported as failed, yet the record
      stays and the next upload gets the next id. */
  method IndexingFailureKeepsRecord(split: string -> seq<string>,
                                    search: (Storage.VectorIndex, string, int) -> seq<string>,
                                    fromId: nat, name: string, text: string, next: Document)
    returns (reply: string, docs: map<nat, Document>, indexed: bool)
    ensures reply == FailedDocumentReply
    ensures docs == map[0 := Document(name, text), 1 := next]
    ensures !indexed
  {
    var bot := new Bot(split, search, None, Storage.Embedded);
    reply := bot.HandleDocument(fromId, name, Some(text), Storage.EmbeddingError("embedding service down"));
    indexed := DocKey(UserKey(fromId), 0) in bot.storage.vectors;
    var _ := bot.HandleDocument(fromId, next.name, Some(next.text), Storage.Embedded);
    docs := bot.userDocuments[UserKey(fromId)];
  }

  /** Reset forgets the user's documents but leaves the index stored under
      the user's first document key, and the book's. */
  method ResetLeavesDocumentIndex(split: string -> seq<string>,
                                  search: (Storage.VectorIndex, string, int) -> seq<string>,
                                  fromId: nat, book: string, name: string, text: string)
    returns (documentsLeft: bool, indexLeft: bool, bookLeft: bool)
    ensures !documentsLeft && indexLeft && bookLeft
  {
    var bot := new Bot(split, search, Some(book), Storage.Embedded);
    var reply := bot.HandleDocument(fromId, name, Some(text), Storage.Embedded);
    DocKeyIsNotBook(fromId, 0);
    reply := bot.ResetUserData(fromId);
    documentsLeft := UserKey(fromId) in bot.userDocuments;
    indexLeft := DocKey(UserKey(fromId), 0) in bot.storage.vectors;
    bookLeft := BookKey in bot.storage.vectors;
  }

  /** Two rate limits, then a reply, for a user with no history: the first
      attempt resets the delay to 1, the sleeps are 1 and 2, the delay ends
      at 4, and the query is in the history three times. */
  method AskAfterTwoRateLimits(username: string, query: string)
    returns (result: Gpt.AskResult, sleeps: seq<nat>, delay: nat, history: seq<Gpt.Message>)
    ensures result == Gpt.Answer("hello")
    ensures sleeps == [1, 2] && delay == 4
    ensures history == [Gpt.System(Gpt.ResetPersona), Gpt.Human(query), Gpt.Human(query),
                        Gpt.Human(query), Gpt.AI("hello")]
  {
    var chat := new Gpt.GPT(8);
    var outcomes := [Gpt.Failure("Error code: 429"), Gpt.Failure("429"), Gpt.Reply("hello")];
    assert Text.OccursAt(outcomes[0].description, "429", 12);
    Text.ContainsIff(outcomes[0].description, "429");
    assert Text.Contains(outcomes[1].description, "429");
    assert !Gpt.IsRateLimited(outcomes[2]);
    assert outcomes[1..][1] == outcomes[2] && outcomes[2..][0] == outcomes[2];
    assert Gpt.RetryCount(outcomes) == 2;
    assert Gpt.Queries(query, 2) == [Gpt.Human(query), Gpt.Human(query)];
    assert Gpt.Queries(query, 3) == [Gpt.Human(query), Gpt.Human(query), Gpt.Human(query)];
    assert Gpt.Sleeps(1, 2) == [1, 2];
    result, sleeps := chat.Ask(username, query, outcomes);
    delay := chat.retryDelay;
    history := chat.messages[username];
  }

  /** An error that is not a rate limit is raised at once; the query stays
      in the history, no reply is added, and the delay is untouched. */
  method AskOtherError(username: string, query: string, earlier: seq<Gpt.Message>)
    returns (result: Gpt.AskResult, sleeps: seq<nat>, delay: nat, history: seq<Gpt.Message>)
    ensures result == Gpt.Raised("500") && sleeps == [] && delay == 5
    ensures history == earlier + [Gpt.Human(query)]
  {
    var chat := new Gpt.GPT(5);
    chat.messages := map[username := earlier];
    var outcomes := [Gpt.Failure("500")];
    assert "500"[0] != "429"[0] && "500"[..3] == "500" && |"500"[1..]| == 2;
    assert !Text.Contains("500", "429");
    assert !Gpt.IsRateLimited(outcomes[0]);
    result, sleeps := chat.Ask(username, query, outcomes);
    delay := chat.retryDelay;
    history := chat.messages[username];
  }

  /** The delay is one value for all users: after one user meets a rate
      limit the next user's first wait is twice as long, and the second
      user's question leaves the first user's history as it was. */
  method SharedDelay(first: string, second: string, query: string)
    returns (secondSleeps: seq<nat>, firstHistory: seq<Gpt.Message>)
    requires first != second
    ensures secondSleeps == [2]
    ensures firstHistory == [Gpt.System(Gpt.ResetPersona), Gpt.Human(query), Gpt.Human(query), Gpt.AI("a")]
  {
    var chat := new Gpt.GPT(1);
    chat.Reset(second);
    var outcomes := [Gpt.Failure("429"), Gpt.Reply("a")];
    assert Text.Contains("429", "429");
    assert !Gpt.IsRateLimited(outcomes[1]);
    assert outcomes[1..][0] == outcomes[1];
    assert Gpt.RetryCount(outcomes) == 1;
    assert Gpt.Queries(query, 2) == [Gpt.Human(query), Gpt.Human(query)];
    var result, sleeps := chat.Ask(first, query, outcomes);
    result, secondSleeps := chat.Ask(second, query, outcomes);
    firstHistory := chat.messages[first];
  }
}
