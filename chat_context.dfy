/**
 * The chat session state of the web client: the transcript, the loading
 * flag, the last error, the vocabulary collected from replies and the
 * session id the backend assigned. Sends are sequential; the network
 * exchange is a parameter.
 */
module ChatContext {
  import opened Wrappers
  import opened Text
  import opened Seqs
  import opened Types

  /** What a failed send throws: an `Error` carrying a message, or some other value. */
  datatype Thrown = ErrorValue(message: string) | NonError

  /** The error shown after a failed send. */
  function ErrorMessage(thrown: Thrown): (m: string)
    ensures thrown.ErrorValue? ==> m == thrown.message
    ensures thrown.NonError? ==> m == "Failed to send message"
  {
    match thrown
    case ErrorValue(message) => message
    case NonError => "Failed to send message"
  }

  /** JavaScript truthiness of an optional string: present and non-empty. */
  predicate Truthy(s: Option<string>) {
    s.Some? && s.value != ""
  }

  /** The optimistic user turn. */
  function UserMessage(text: string, now: int): ChatMessage {
    ChatMessage("user-" + Timestamp(now), UserRole, text, Timestamp(now), None)
  }

  /** The assistant turn built from a reply, with the reply's metadata. */
  function AssistantMessage(response: ChatResponse, now: int): ChatMessage {
    ChatMessage("assistant-" + Timestamp(now), AssistantRole, response.message, Timestamp(now),
      Some(MessageMetadata(Some(response.agentType), Some(response.confidence), response.vocabulary,
                           response.grammarNotes, response.audioUrl)))
  }

  /** The request `sendMessage` makes: the text, the demo user, the held session id if any, Hiligaynon. */
  function RequestFor(text: string, held: Option<string>): (r: ChatRequest)
    ensures r.message == text && r.userId == Some("demo-user") && r.language == Some("hiligaynon")
    ensures Truthy(held) ==> r.sessionId == held
    ensures !Truthy(held) ==> r.sessionId == None
  {
    ChatRequest(text, Some("demo-user"), if Truthy(held) then held else None, Some("hiligaynon"))
  }

  /** The session id after a reply: the returned one, only when none is held. */
  function AdoptSession(held: Option<string>, returned: Option<string>): Option<string> {
    if Truthy(returned) && !Truthy(held) then returned else held
  }

  /** A held session id is never replaced; without one, a returned id is taken. */
  lemma AdoptSessionSpec(held: Option<string>, returned: Option<string>)
    ensures Truthy(held) ==> AdoptSession(held, returned) == held
    ensures !Truthy(held) && Truthy(returned) ==> AdoptSession(held, returned) == returned
    ensures !Truthy(held) && !Truthy(returned) ==> AdoptSession(held, returned) == held
  {
  }

  // ---------------------------------------------------------------------
  // Vocabulary merge

  /** The words of a vocabulary list. */
  function Words(items: seq<VocabularyItem>): set<string> {
    set i | 0 <= i < |items| :: items[i].word
  }

  /** The filter test of the merge: the word is not one of `words`. */
  function IsNewWord(words: set<string>): VocabularyItem -> bool {
    (v: VocabularyItem) => v.word !in words
  }

  /** The vocabulary after a reply: the reply's items whose word is not yet known are appended in order. */
  function MergeVocabulary(prev: seq<VocabularyItem>, incoming: Option<seq<VocabularyItem>>): seq<VocabularyItem> {
    if incoming.Some? && |incoming.value| > 0 then prev + Filter(incoming.value, IsNewWord(Words(prev)))
    else prev
  }

  /** The items a reply carries (none when the field is missing). */
  function Incoming(incoming: Option<seq<VocabularyItem>>): seq<VocabularyItem> {
    if incoming.Some? then incoming.value else []
  }

  /**
   * The old list is kept as a prefix; what follows is the order-preserving
   * subsequence of the reply's items with unknown words, and every copy of
   * every such item is there, repeats included.
   */
  lemma {:induction false} MergeSpec(prev: seq<VocabularyItem>, incoming: Option<seq<VocabularyItem>>)
    ensures var r := MergeVocabulary(prev, incoming);
      && |prev| <= |r| && r[..|prev|] == prev
      && Subsequence(r[|prev|..], Incoming(incoming))
      && (forall i :: |prev| <= i < |r| ==> r[i].word !in Words(prev))
      && (forall v :: v in Incoming(incoming) && v.word !in Words(prev) ==> v in r[|prev|..])
      && (forall v :: multiset(r[|prev|..])[v] == if v.word !in Words(prev) then multiset(Incoming(incoming))[v] else 0)
  {
    var r := MergeVocabulary(prev, incoming);
    if incoming.Some? && |incoming.value| > 0 {
      var added := Filter(incoming.value, IsNewWord(Words(prev)));
      FilterSpec(incoming.value, IsNewWord(Words(prev)));
      FilterCount(incoming.value, IsNewWord(Words(prev)));
      assert r[|prev|..] == added;
      forall i | |prev| <= i < |r|
        ensures r[i].word !in Words(prev)
      {
        assert r[i] == added[i - |prev|];
        assert r[i] in added;
      }
    } else {
      assert r[|prev|..] == [];
    }
  }

  /** After a merge the known words are the old ones plus the reply's. */
  lemma {:induction false} MergeWords(prev: seq<VocabularyItem>, incoming: Option<seq<VocabularyItem>>)
    ensures Words(MergeVocabulary(prev, incoming)) == Words(prev) + Words(Incoming(incoming))
  {
    var r := MergeVocabulary(prev, incoming);
    var inc := Incoming(incoming);
    var added := Filter(inc, IsNewWord(Words(prev)));
    FilterSpec(inc, IsNewWord(Words(prev)));
    if !(incoming.Some? && |incoming.value| > 0) {
      assert inc == [] && r == prev + added;
    }
    assert r == prev + added && r[|prev|..] == added;
    forall w | w in Words(r)
      ensures w in Words(prev) + Words(inc)
    {
      var i :| 0 <= i < |r| && r[i].word == w;
      if i >= |prev| {
        assert added[i - |prev|] == r[i];
        assert r[i] in inc;
        var j :| 0 <= j < |inc| && inc[j] == r[i];
        assert inc[j].word == w;
      } else {
        assert prev[i] == r[i];
      }
    }
    forall w | w in Words(prev) + Words(inc)
      ensures w in Words(r)
    {
      if w in Words(prev) {
        var i :| 0 <= i < |prev| && prev[i].word == w;
        assert r[i] == prev[i];
      } else {
        var j :| 0 <= j < |inc| && inc[j].word == w;
        assert inc[j] in r[|prev|..];
        var k :| 0 <= k < |r| - |prev| && r[|prev|..][k] == inc[j];
        assert r[|prev| + k].word == w;
      }
    }
  }

  /** Merging the same reply twice adds nothing the second time. */
  lemma {:induction false} MergeIdempotent(prev: seq<VocabularyItem>, incoming: Option<seq<VocabularyItem>>)
    ensures MergeVocabulary(MergeVocabulary(prev, incoming), incoming) == MergeVocabulary(prev, incoming)
  {
    var r := MergeVocabulary(prev, incoming);
    if incoming.Some? && |incoming.value| > 0 {
      MergeWords(prev, incoming);
      var inc := incoming.value;
      forall i | 0 <= i < |inc|
        ensures !IsNewWord(Words(r))(inc[i])
      {
        assert inc[i].word in Words(inc);
      }
      FilterNone(inc, IsNewWord(Words(r)));
      assert r + [] == r;
    }
  }

  /** Duplicates inside one reply are both kept when their word is new. */
  lemma DuplicatesKept(prev: seq<VocabularyItem>, v: VocabularyItem)
    requires v.word !in Words(prev)
    ensures MergeVocabulary(prev, Some([v, v])) == prev + [v, v]
  {
    var p := IsNewWord(Words(prev));
    assert p(v);
    assert [v, v][1..] == [v];
    assert [v][1..] == [];
    assert Filter([v], p) == [v];
    assert Filter([v, v], p) == [v, v];
  }

  // ---------------------------------------------------------------------
  // The provider

  class ChatProvider {
    var messages: seq<ChatMessage>
    var isLoading: bool
    var error: Option<string>
    var currentVocabulary: seq<VocabularyItem>
    var sessionId: Option<string>

    /**
     * A held session id is never the empty string, so the request of a send
     * carries exactly the held id (JavaScript's truthiness test drops only
     * the missing one).
     */
    ghost predicate Valid()
      reads this
    {
      sessionId != Some("")
    }

    constructor()
      ensures Valid()
      ensures messages == [] && !isLoading && error == None && currentVocabulary == [] && sessionId == None
    {
      messages := [];
      isLoading := false;
      error := None;
      currentVocabulary := [];
      sessionId := None;
    }

    /**
     * The part of `sendMessage` before the request: blank input changes
     * nothing; otherwise the trimmed user turn is appended, loading starts and
     * the error is cleared, and the request to make is returned.
     */
    method BeginSend(content: string, now: int) returns (request: Option<ChatRequest>)
      requires Valid()
      modifies this
      ensures Valid()
      ensures Trim(content) == "" ==> request == None && unchanged(this)
      ensures Trim(content) != "" ==>
        request == Some(RequestFor(Trim(content), old(sessionId)))
        && request.value.sessionId == old(sessionId)
        && messages == old(messages) + [UserMessage(Trim(content), now)]
        && isLoading && error == None
        && currentVocabulary == old(currentVocabulary) && sessionId == old(sessionId)
    {
      var text := Trim(content);
      if text == [] {
        request := None;
      } else {
        request := Some(RequestFor(text, sessionId));
        StartTurn(UserMessage(text, now));
      }
    }

    /** The optimistic update: the user turn goes on the transcript, loading starts, the error clears. */
    method StartTurn(turn: ChatMessage)
      requires Valid()
      modifies this
      ensures Valid()
      ensures messages == old(messages) + [turn] && isLoading && error == None
      ensures currentVocabulary == old(currentVocabulary) && sessionId == old(sessionId)
    {
      messages := messages + [turn];
      isLoading := true;
      error := None;
    }

    /**
     * The part of `sendMessage` after the request. A reply appends the
     * assistant turn, adopts its session id when none is held and merges its
     * vocabulary; a failure records the error and rolls nothing back. Loading
     * ends either way.
     */
    method FinishSend(outcome: Result<ChatResponse, Thrown>, now: int)
      requires Valid()
      modifies this
      ensures Valid()
      ensures !isLoading
      ensures outcome.Ok? ==>
        messages == old(messages) + [AssistantMessage(outcome.value, now)]
        && sessionId == AdoptSession(old(sessionId), outcome.value.sessionId)
        && currentVocabulary == MergeVocabulary(old(currentVocabulary), outcome.value.vocabulary)
        && error == old(error)
      ensures outcome.Err? ==>
        error == Some(ErrorMessage(outcome.error))
        && messages == old(messages) && sessionId == old(sessionId)
        && currentVocabulary == old(currentVocabulary)
    {
      match outcome {
        case Ok(response) =>
          if Truthy(response.sessionId) && !Truthy(sessionId) {
            sessionId := response.sessionId;
          }
          messages := messages + [AssistantMessage(response, now)];
          if response.vocabulary.Some? && |response.vocabulary.value| > 0 {
            currentVocabulary := currentVocabulary + Filter(response.vocabulary.value, IsNewWord(Words(currentVocabulary)));
          }
        case Err(thrown) =>
          error := Some(ErrorMessage(thrown));
      }
      isLoading := false;
    }

    /**
     * `sendMessage`: one sequential send through `exchange`, which stands for
     * the backend call. The transcript grows by two on success and by one on
     * failure; earlier turns are untouched.
     */
    method SendMessage(content: string, sentAt: int, receivedAt: int,
                       exchange: ChatRequest -> Result<ChatResponse, Thrown>)
      requires Valid()
      modifies this
      ensures Valid()
      ensures Trim(content) == "" ==> unchanged(this)
      ensures Trim(content) != "" ==>
        var outcome := exchange(RequestFor(Trim(content), old(sessionId)));
        && !isLoading
        && (outcome.Ok? ==>
              messages == old(messages) + [UserMessage(Trim(content), sentAt), AssistantMessage(outcome.value, receivedAt)]
              && error == None
              && sessionId == AdoptSession(old(sessionId), outcome.value.sessionId)
              && currentVocabulary == MergeVocabulary(old(currentVocabulary), outcome.value.vocabulary))
        && (outcome.Err? ==>
              messages == old(messages) + [UserMessage(Trim(content), sentAt)]
              && error == Some(ErrorMessage(outcome.error))
              && sessionId == old(sessionId) && currentVocabulary == old(currentVocabulary))
    {
      var request := BeginSend(content, sentAt);
      if request.Some? {
        var outcome := exchange(request.value);
        FinishSend(outcome, receivedAt);
      }
    }

    /** `clearChat`: empty transcript and vocabulary, no session, no error; loading is left alone. */
    method ClearChat()
      modifies this
      ensures Valid()
      ensures messages == [] && currentVocabulary == [] && sessionId == None && error == None
      ensures isLoading == old(isLoading)
    {
      messages := [];
      currentVocabulary := [];
      sessionId := None;
      error := None;
    }

    /** `setError`: replaces the error and nothing else. */
    method SetError(e: Option<string>)
      requires Valid()
      modifies this
      ensures Valid()
      ensures error == e
      ensures messages == old(messages) && isLoading == old(isLoading)
      ensures currentVocabulary == old(currentVocabulary) && sessionId == old(sessionId)
    {
      error := e;
    }
  }
}
