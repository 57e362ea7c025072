/**
 * Whole interactions, from mounting the app to the last settled request,
 * stepped through on the controller and the composer with fixed outcomes.
 */
module Scenarios {
  import opened Wrappers
  import Text
  import opened Messages
  import opened Modes
  import opened Input
  import opened Conversation
  import opened Frontend

  /** Empty history; "What is a monad?" asked in the concept-breakdown mode
      and answered: one exchange in the transcript, one refresh. */
  method AnsweredQuestion(now: nat) returns (transcript: seq<Message>, request: Option<Request>, refresh: bool)
    ensures transcript == [Message(User, "What is a monad?"), Message(Assistant, "A monad is...")]
    ensures request == Some(Ask(AskRequest("What is a monad?", SessionIdFor(now), "concept_breakdown")))
    ensures refresh
  {
    var app := new App(now);
    app.FetchHistory(Fetched([]));
    var input := new MessageInput();
    input.Edit("What is a monad?", false);
    input.ChooseMode(ConceptBreakdown);
    ghost var s0 := app.State();
    assert s0 == LoadHistory(Init(now), Fetched([]));
    assert input.file == None && input.message == "What is a monad?" && input.selectedMode == ConceptBreakdown;
    QuestionAsked(now);
    request := Submit(app, input);
    assert request.Some?;
    assert request.value.Ask?;
    assert app.State() == StartSend(s0, "What is a monad?");
    QuestionAnswered(now);
    refresh := app.SettleSendMessage(Replied(None, "A monad is..."));
    transcript := app.messages;
  }

  /** Submitting the question from a fresh, empty chat asks it in the
      chosen mode under the chat's own id. */
  lemma QuestionAsked(now: nat)
    ensures var s0 := LoadHistory(Init(now), Fetched([]));
      && !SubmitDisabled("What is a monad?", None, s0.isLoading)
      && AskFor(s0, "What is a monad?", ConceptBreakdown) == AskRequest("What is a monad?", SessionIdFor(now), "concept_breakdown")
  {
    assert Id(ConceptBreakdown) == "concept_breakdown";
    var s0 := LoadHistory(Init(now), Fetched([]));
    assert !s0.isLoading && s0.currentSessionId == SessionIdFor(now);
    QuestionIsNotBlank();
  }

  /** The answer to that question completes the exchange and refreshes
      the session list. */
  lemma QuestionAnswered(now: nat)
    ensures var s0 := LoadHistory(Init(now), Fetched([]));
      && SettleSend(StartSend(s0, "What is a monad?"), Replied(None, "A monad is...")).messages
         == [Message(User, "What is a monad?"), Message(Assistant, "A monad is...")]
      && RefreshesHistory(Replied(None, "A monad is..."))
  {
    var s0 := LoadHistory(Init(now), Fetched([]));
    assert s0.messages == [];
    var answered := Replied(None, "A monad is...");
    assert AskReply(answered) == Message(Assistant, "A monad is...");
    assert StartSend(s0, "What is a monad?").messages == [Message(User, "What is a monad?")];
  }

  /** The question of the scenario above is not blank, so it is sent. */
  lemma QuestionIsNotBlank()
    ensures !Text.Blank("What is a monad?")
    ensures !SubmitDisabled("What is a monad?", None, false)
  {
    assert !Text.IsWhitespace("What is a monad?"[0]);
  }

  /** A reply carrying `{error: "rate limited"}`: the transcript ends with
      "Error: rate limited" and no refresh is issued. */
  method RateLimited(now: nat) returns (transcript: seq<Message>, refresh: bool)
    ensures transcript == [Message(User, "hello"), Message(Assistant, "Error: rate limited")]
    ensures !refresh
  {
    var app := new App(now);
    var request, r := app.SendMessage("hello", Auto, Replied(Some("rate limited"), ""));
    assert ErrorPrefix + "rate limited" == "Error: rate limited";
    transcript, refresh := app.messages, r;
  }

  /** The upload of "notes.pdf" fails: one advisory message, the table
      untouched, the busy flag clear. */
  method FailedUpload(now: nat, history: SessionTable) returns (request: Option<Request>, transcript: seq<Message>, sessions: SessionTable, busy: bool)
    ensures request == Some(Post(File("notes.pdf")))
    ensures transcript == [Message(Assistant, "Failed to analyze file. Only PDF and DOCX are supported.")]
    ensures sessions == history
    ensures !busy
  {
    var app := new App(now);
    app.FetchHistory(Fetched(history));
    var input := new MessageInput();
    input.ChooseFile(Some(File("notes.pdf")));
    request := Submit(app, input);
    app.SettleFileUpload(File("notes.pdf"), UploadFailed);
    transcript, sessions, busy := app.messages, app.sessions, app.isLoading;
  }

  /** Submitting blank text with no file staged issues no request and
      leaves the transcript empty and the app idle. */
  method BlankSubmit(now: nat) returns (request: Option<Request>, transcript: seq<Message>, busy: bool)
    ensures request == None && transcript == [] && !busy
  {
    var app := new App(now);
    var input := new MessageInput();
    input.Edit(" \n\t", app.isLoading);
    request := Submit(app, input);
    transcript, busy := app.messages, app.isLoading;
  }
}
