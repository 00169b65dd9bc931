/**
 * The per-session state of the application and the four transitions that
 * change it: analyzing a URL, asking a question, clearing the chat and
 * resetting the analysis.
 */
module Session {
  import opened Wrappers
  import opened Extraction
  import opened Generation

  datatype Role = User | Assistant

  /** One entry of the message log. */
  datatype Message = Message(role: Role, content: string)

  /** A question and the answer recorded for it. */
  datatype Exchange = Exchange(question: string, answer: string)

  /** The log entries alternate user, assistant, ..., starting with user. */
  predicate Alternating(log: seq<Message>)
  {
    forall i :: 0 <= i < |log| ==> log[i].role == if i % 2 == 0 then User else Assistant
  }

  /** The message log of a sequence of exchanges: a user entry, then an assistant entry, per exchange. */
  function Flatten(exchanges: seq<Exchange>): seq<Message>
  {
    if exchanges == [] then []
    else
      var last := exchanges[|exchanges| - 1];
      Flatten(exchanges[..|exchanges| - 1]) + [Message(User, last.question), Message(Assistant, last.answer)]
  }

  /** Reads back the exchanges from a log of alternating entries. */
  function Unflatten(log: seq<Message>): seq<Exchange>
    requires |log| % 2 == 0
  {
    if log == [] then []
    else Unflatten(log[..|log| - 2]) + [Exchange(log[|log| - 2].content, log[|log| - 1].content)]
  }

  /** A log built from N exchanges has 2 * N entries that alternate, starting with user. */
  lemma {:induction false} FlattenShape(exchanges: seq<Exchange>)
    ensures |Flatten(exchanges)| == 2 * |exchanges|
    ensures Alternating(Flatten(exchanges))
  {
    if exchanges != [] {
      var front := exchanges[..|exchanges| - 1];
      FlattenShape(front);
      var log := Flatten(exchanges);
      forall i | 0 <= i < |log|
        ensures log[i].role == if i % 2 == 0 then User else Assistant
      {
        if i < |Flatten(front)| {
          assert log[i] == Flatten(front)[i];
        }
      }
    }
  }

  /** Appending an exchange appends its two entries to the log. */
  lemma FlattenAppend(exchanges: seq<Exchange>, e: Exchange)
    ensures Flatten(exchanges + [e]) == Flatten(exchanges) + [Message(User, e.question), Message(Assistant, e.answer)]
  {
    assert (exchanges + [e])[..|exchanges|] == exchanges;
  }

  /** Reading back the log of a sequence of exchanges gives those exchanges. */
  lemma {:induction false} UnflattenFlatten(exchanges: seq<Exchange>)
    ensures |Flatten(exchanges)| % 2 == 0
    ensures Unflatten(Flatten(exchanges)) == exchanges
  {
    FlattenShape(exchanges);
    if exchanges != [] {
      var front := exchanges[..|exchanges| - 1];
      var e := exchanges[|exchanges| - 1];
      assert exchanges == front + [e];
      FlattenShape(front);
      UnflattenFlatten(front);
      var log := Flatten(exchanges);
      var pair := [Message(User, e.question), Message(Assistant, e.answer)];
      assert log == Flatten(front) + pair;
      assert log[..|log| - 2] == Flatten(front);
      assert log[|log| - 2] == pair[0] && log[|log| - 1] == pair[1];
      calc {
        Unflatten(log);
        Unflatten(log[..|log| - 2]) + [Exchange(log[|log| - 2].content, log[|log| - 1].content)];
        front + [e];
      }
    }
  }

  /** Dropping the last exchange of an alternating log leaves an alternating log. */
  lemma AlternatingFront(log: seq<Message>)
    requires |log| >= 2 && Alternating(log)
    ensures Alternating(log[..|log| - 2])
  {
    var front := log[..|log| - 2];
    forall i | 0 <= i < |front|
      ensures front[i].role == if i % 2 == 0 then User else Assistant
    {
      assert front[i] == log[i];
    }
  }

  /** A log ending in a user entry and an assistant entry is its front plus that pair. */
  lemma SplitLastPair(log: seq<Message>)
    requires |log| >= 2 && log[|log| - 2].role == User && log[|log| - 1].role == Assistant
    ensures log == log[..|log| - 2] + [Message(User, log[|log| - 2].content), Message(Assistant, log[|log| - 1].content)]
  {
    var n := |log|;
    assert log[n - 2] == Message(User, log[n - 2].content);
    assert log[n - 1] == Message(Assistant, log[n - 1].content);
    assert log == log[..n - 2] + [log[n - 2], log[n - 1]];
  }

  /** Every even-length alternating log is the log of the exchanges read back from it. */
  lemma {:induction false} FlattenUnflatten(log: seq<Message>)
    requires |log| % 2 == 0 && Alternating(log)
    ensures Flatten(Unflatten(log)) == log
  {
    if log != [] {
      var n := |log|;
      var front := log[..n - 2];
      assert log[n - 2].role == User && log[n - 1].role == Assistant by {
        assert (n - 2) % 2 == 0 && (n - 1) % 2 == 1;
      }
      AlternatingFront(log);
      FlattenUnflatten(front);
      var e := Exchange(log[n - 2].content, log[n - 1].content);
      FlattenAppend(Unflatten(front), e);
      SplitLastPair(log);
    }
  }

  /** st.session_state: the stored content, the message log and the analytics counters. */
  class ChatSession {
    var websiteContent: Option<WebsiteContent>
    var messages: seq<Message>
    var totalQuestions: nat
    var websitesAnalyzed: set<string>
    var lastActivity: Option<Timestamp>

    /** The questions and answers recorded since the chat was last cleared. */
    ghost var exchanges: seq<Exchange>

    ghost predicate Valid()
      reads this
    {
      && messages == Flatten(exchanges)
      && totalQuestions == |exchanges|
      && (websiteContent.None? ==> messages == [])
      && (websiteContent.Some? ==>
            WellFormed(websiteContent.value) && websitesAnalyzed != {} && lastActivity.Some?)
    }

    /** The question interface is shown only while content is stored. */
    predicate QuestionsEnabled()
      reads this
    {
      websiteContent.Some?
    }

    /** The number of distinct sites shown in the dashboard. */
    function SitesAnalyzed(): nat
      reads this
    {
      |websitesAnalyzed|
    }

    /** The initial session state. */
    constructor ()
      ensures Valid()
      ensures websiteContent == None && messages == [] && totalQuestions == 0
      ensures websitesAnalyzed == {} && lastActivity == None && exchanges == []
    {
      websiteContent := None;
      messages := [];
      totalQuestions := 0;
      websitesAnalyzed := {};
      lastActivity := None;
      exchanges := [];
    }

    /**
     * The "Start Analysis" action for `url`: `fetched` is the article download
     * and parse, `extractedAt` and `now` the two clock readings.
     */
    method Analyze(url: string, fetched: Option<Article>, extractedAt: Timestamp, now: Timestamp)
      returns (ok: bool)
      requires Valid()
      modifies this
      ensures Valid()
      ensures ok <==> url != [] && ExtractWebsiteContent(fetched, extractedAt).Some?
      ensures ok ==> websiteContent == ExtractWebsiteContent(fetched, extractedAt)
                     && websitesAnalyzed == old(websitesAnalyzed) + {url}
                     && lastActivity == Some(now)
      ensures !ok ==> websiteContent == old(websiteContent)
                      && websitesAnalyzed == old(websitesAnalyzed)
                      && lastActivity == old(lastActivity)
      ensures SitesAnalyzed() == if ok && url !in old(websitesAnalyzed) then old(SitesAnalyzed()) + 1
                                 else old(SitesAnalyzed())
      ensures messages == old(messages) && totalQuestions == old(totalQuestions)
      ensures exchanges == old(exchanges)
    {
      ok := false;
      if url != [] {
        var content := ExtractWebsiteContent(fetched, extractedAt);
        if content.Some? {
          websiteContent := content;
          websitesAnalyzed := websitesAnalyzed + {url};
          lastActivity := Some(now);
          ok := true;
        }
      }
    }

    /**
     * A question submitted in the chat input; `complete` is the completion
     * service and `now` the clock reading.
     */
    method Ask(userInput: string, now: Timestamp, complete: Completion) returns (answered: bool)
      requires Valid()
      modifies this
      ensures Valid()
      ensures answered <==> old(QuestionsEnabled()) && userInput != []
      ensures answered ==>
                var response := GenerateResponse(userInput, old(websiteContent).value.text, complete);
                && totalQuestions == old(totalQuestions) + 1
                && messages == old(messages) + [Message(User, userInput), Message(Assistant, response)]
                && exchanges == old(exchanges) + [Exchange(userInput, response)]
                && lastActivity == Some(now)
      ensures !answered ==>
                && totalQuestions == old(totalQuestions)
                && messages == old(messages)
                && exchanges == old(exchanges)
                && lastActivity == old(lastActivity)
      ensures websiteContent == old(websiteContent) && websitesAnalyzed == old(websitesAnalyzed)
    {
      answered := false;
      if websiteContent.Some? && userInput != [] {
        totalQuestions := totalQuestions + 1;
        lastActivity := Some(now);
        messages := messages + [Message(User, userInput)];
        var response := GenerateResponse(userInput, websiteContent.value.text, complete);
        messages := messages + [Message(Assistant, response)];
        FlattenAppend(exchanges, Exchange(userInput, response));
        exchanges := exchanges + [Exchange(userInput, response)];
        answered := true;
      }
    }

    /** clear_chat: empties the log and the question counter. */
    method ClearChat()
      requires Valid()
      modifies this
      ensures Valid()
      ensures messages == [] && totalQuestions == 0 && exchanges == []
      ensures websiteContent == old(websiteContent)
      ensures websitesAnalyzed == old(websitesAnalyzed) && lastActivity == old(lastActivity)
    {
      messages := [];
      totalQuestions := 0;
      exchanges := [];
    }

    /** reset_analysis: forgets the content, the log, the counter and the analyzed sites. */
    method ResetAnalysis()
      requires Valid()
      modifies this
      ensures Valid()
      ensures websiteContent == None && messages == [] && totalQuestions == 0
      ensures websitesAnalyzed == {} && exchanges == []
      ensures lastActivity == old(lastActivity)
    {
      websiteContent := None;
      messages := [];
      totalQuestions := 0;
      websitesAnalyzed := {};
      exchanges := [];
    }
  }

  /** In every valid session the log has two entries per question, alternating from user. */
  lemma LogShape(s: ChatSession)
    requires s.Valid()
    ensures |s.messages| == 2 * s.totalQuestions
    ensures Alternating(s.messages)
  {
    FlattenShape(s.exchanges);
  }

  /** A log with a message is only possible while content is stored. */
  lemma MessagesNeedContent(s: ChatSession)
    requires s.Valid()
    requires s.messages != []
    ensures s.QuestionsEnabled()
  {
  }

  /** Analyze a page, then ask one question whose answer the service supplies. */
  method EndToEndScenario()
  {
    var s := new ChatSession();
    var article := Article("T", "hello world", None, "");
    var ok := s.Analyze("https://example.com/article", Some(article), "2024-01-01 00:00:00", "2024-01-01 00:00:00");
    assert ok;
    assert s.websiteContent.value.length == 11;
    var complete: Completion := prompt => Some("It is a greeting.");
    var answered := s.Ask("What is this about?", "2024-01-01 00:00:01", complete);
    assert answered;
    assert s.messages == [Message(User, "What is this about?"), Message(Assistant, "It is a greeting.")];
    assert s.totalQuestions == 1;
    assert s.websitesAnalyzed == {"https://example.com/article"};
    LogShape(s);
  }
}
