/**
 * The conversation controller: the session table, the current session id,
 * the live transcript and the busy flag, and the handlers that change them.
 * Every network call is replaced by its outcome, passed in when the call
 * settles.
 */
module Conversation {
  import opened Wrappers
  import opened Text
  import opened Messages
  import opened Modes
  import opened Input
  import Sidebar

  // ---------------------------------------------------------------------
  // Network outcomes and requests

  /** How `GET /history` settled. */
  datatype HistoryOutcome = Fetched(table: SessionTable) | HistoryFailed

  /** How `POST /ask` settled: a reply body, whose `error` field may be
      absent, or a transport failure (the request threw). */
  datatype AskOutcome = Replied(error: Option<string>, answer: string) | TransportFailure

  /** How `POST /upload` settled: a reply body or a failure of any kind. */
  datatype UploadOutcome = Analyzed(filename: string, analysis: string) | UploadFailed

  /** The body of `POST /ask`. */
  datatype AskRequest = AskRequest(question: string, sessionId: string, mode: string)

  /** The reply carries a truthy `error`: present and not the empty string. */
  predicate HasError(o: AskOutcome)
    ensures HasError(o) ==> o.Replied? && o.error.Some?
    ensures o.Replied? && o.error == Some("") ==> !HasError(o)
  {
    o.Replied? && o.error.Some? && o.error.value != ""
  }

  /** An ask that settles like this is followed by a history refresh. */
  predicate RefreshesHistory(o: AskOutcome) {
    o.Replied? && !HasError(o)
  }

  const ConnectionErrorText := "Connection error. Is the backend running?"
  const UploadFailedText := "Failed to analyze file. Only PDF and DOCX are supported."
  const ErrorPrefix := "Error: "
  const UploadedPrefix := "Uploaded file: "
  const AnalysisPrefix := "# File Analysis: "

  /** The id minted from a clock reading in milliseconds. */
  function SessionIdFor(now: nat): (id: string)
    ensures |id| > 8 && id[..8] == "session_" && id[8..] == Decimal(now)
  {
    "session_" + Decimal(now)
  }

  /** Two clock readings mint the same id only when they are equal. */
  lemma SessionIdInjective(a: nat, b: nat)
    requires SessionIdFor(a) == SessionIdFor(b)
    ensures a == b
  {
    assert Decimal(a) == SessionIdFor(a)[8..] == SessionIdFor(b)[8..] == Decimal(b);
    DecimalInjective(a, b);
  }

  /** `s` starts with `p`. */
  predicate HasPrefix(s: string, p: string) {
    |p| <= |s| && s[..|p|] == p
  }

  /** The one assistant message an ask adds when it settles. */
  function AskReply(o: AskOutcome): (m: Message)
    ensures m.role == Assistant
    ensures o.TransportFailure? ==> m.content == ConnectionErrorText
    ensures HasError(o) ==> HasPrefix(m.content, ErrorPrefix) && m.content[|ErrorPrefix|..] == o.error.value
    ensures RefreshesHistory(o) ==> m.content == o.answer
  {
    match o
    case TransportFailure => Message(Assistant, ConnectionErrorText)
    case Replied(error, answer) =>
      if error.Some? && error.value != "" then Message(Assistant, ErrorPrefix + error.value)
      else Message(Assistant, answer)
  }

  /** The messages an upload adds when it settles: the user's line naming
      the file and the analysis report, or one advisory on failure. */
  function UploadReplies(file: File, o: UploadOutcome): (ms: seq<Message>)
    ensures o.UploadFailed? ==> ms == [Message(Assistant, UploadFailedText)]
    ensures o.Analyzed? ==> |ms| == 2 && ms[0].role == User && ms[1].role == Assistant
    ensures o.Analyzed? ==> HasPrefix(ms[0].content, UploadedPrefix) && ms[0].content[|UploadedPrefix|..] == file.name
    ensures o.Analyzed? ==>
              var heading := AnalysisPrefix + o.filename + "\n\n";
              HasPrefix(ms[1].content, heading) && ms[1].content[|heading|..] == o.analysis
  {
    match o
    case UploadFailed => [Message(Assistant, UploadFailedText)]
    case Analyzed(filename, analysis) =>
      [Message(User, UploadedPrefix + file.name),
       Message(Assistant, AnalysisPrefix + filename + "\n\n" + analysis)]
  }

  // ---------------------------------------------------------------------
  // The controller's state and its transitions

  /** The four state fields of the controller. */
  datatype AppState = AppState(
    sessions: SessionTable,
    currentSessionId: string,
    messages: seq<Message>,
    isLoading: bool)

  /** No history yet, a freshly minted id, an empty transcript, idle. */
  function Init(now: nat): (r: AppState)
    ensures r.sessions == [] && r.messages == [] && !r.isLoading
    ensures r.currentSessionId == SessionIdFor(now)
  {
    AppState([], SessionIdFor(now), [], false)
  }

  /** The history fetch settled: a reply replaces the table wholesale, a
      failure leaves everything as it was. */
  function LoadHistory(s: AppState, o: HistoryOutcome): (r: AppState)
    ensures r.currentSessionId == s.currentSessionId && r.messages == s.messages && r.isLoading == s.isLoading
    ensures o.Fetched? ==> r.sessions == o.table
    ensures o.HistoryFailed? ==> r == s
  {
    match o
    case Fetched(table) => s.(sessions := table)
    case HistoryFailed => s
  }

  /** A send begins: the user's text is echoed at once and the busy flag set. */
  function StartSend(s: AppState, content: string): (r: AppState)
    ensures r.sessions == s.sessions && r.currentSessionId == s.currentSessionId
    ensures r.isLoading
    ensures |r.messages| == |s.messages| + 1 && r.messages[..|s.messages|] == s.messages
    ensures r.messages[|s.messages|] == Message(User, content)
  {
    s.(messages := s.messages + [Message(User, content)], isLoading := true)
  }

  /** The request a send issues, read from the state it begins in. */
  function AskFor(s: AppState, content: string, mode: Mode): (req: AskRequest)
    ensures req.question == content && req.sessionId == s.currentSessionId
    ensures forall m: Mode :: req.mode == Id(m) <==> m == mode
  {
    forall m: Mode ensures Id(m) == Id(mode) ==> m == mode {
      IdInjective(m, mode);
    }
    AskRequest(content, s.currentSessionId, Id(mode))
  }

  /** A send settled: one assistant message is added to the live transcript
      and the busy flag is cleared, whatever the outcome. */
  function SettleSend(s: AppState, o: AskOutcome): (r: AppState)
    ensures r.sessions == s.sessions && r.currentSessionId == s.currentSessionId
    ensures !r.isLoading
    ensures |r.messages| == |s.messages| + 1 && r.messages[..|s.messages|] == s.messages
    ensures r.messages[|s.messages|] == AskReply(o)
  {
    s.(messages := s.messages + [AskReply(o)], isLoading := false)
  }

  /** An upload begins: only the busy flag is set. */
  function StartUpload(s: AppState): (r: AppState)
    ensures r.isLoading
    ensures r.sessions == s.sessions && r.currentSessionId == s.currentSessionId && r.messages == s.messages
  {
    s.(isLoading := true)
  }

  /** An upload settled: its messages are added to the live transcript and
      the busy flag cleared; the table is not refreshed. */
  function SettleUpload(s: AppState, file: File, o: UploadOutcome): (r: AppState)
    ensures r.sessions == s.sessions && r.currentSessionId == s.currentSessionId
    ensures !r.isLoading
    ensures |r.messages| == |s.messages| + (if o.Analyzed? then 2 else 1)
    ensures r.messages[..|s.messages|] == s.messages
    ensures r.messages[|s.messages|..] == UploadReplies(file, o)
  {
    s.(messages := s.messages + UploadReplies(file, o), isLoading := false)
  }

  /** A session is selected: it becomes current and its stored transcript
      (empty if the table has none) replaces the live one. */
  function SelectSession(s: AppState, id: string): (r: AppState)
    ensures r.currentSessionId == id && r.sessions == s.sessions && r.isLoading == s.isLoading
    ensures forall k :: 0 <= k < |s.sessions| && s.sessions[k].id == id ==> r.messages == s.sessions[k].messages
    ensures (forall k :: 0 <= k < |s.sessions| ==> s.sessions[k].id != id) ==> r.messages == []
  {
    forall k | 0 <= k < |s.sessions| && s.sessions[k].id == id
      ensures StoredOrEmpty(s.sessions, id) == s.sessions[k].messages
    {
      LookupFinds(s.sessions, k);
    }
    s.(currentSessionId := id, messages := StoredOrEmpty(s.sessions, id))
  }

  /** A new chat: a freshly minted id and an empty transcript. */
  function NewChat(s: AppState, now: nat): (r: AppState)
    ensures r.messages == [] && r.currentSessionId == SessionIdFor(now)
    ensures r.sessions == s.sessions && r.isLoading == s.isLoading
  {
    s.(currentSessionId := SessionIdFor(now), messages := [])
  }

  // ---------------------------------------------------------------------
  // Properties of the transitions

  /** A send that settles in any way grows the transcript by exactly two,
      the user's text and then one assistant message, keeping the rest. */
  lemma SendAddsExchange(s: AppState, content: string, o: AskOutcome)
    ensures var r := SettleSend(StartSend(s, content), o);
      && r.messages == s.messages + [Message(User, content), AskReply(o)]
      && r.sessions == s.sessions && !r.isLoading
  {
    var r := SettleSend(StartSend(s, content), o);
    assert r.messages == (s.messages + [Message(User, content)]) + [AskReply(o)];
  }

  /** The transcript and refresh count after a run of sends that each begin
      and settle with an answer before the next begins. */
  function RunSends(s: AppState, questions: seq<string>, answers: seq<string>): (AppState, nat)
    requires |questions| == |answers|
    decreases |questions|
  {
    if questions == [] then (s, 0)
    else
      var o := Replied(None, answers[0]);
      var (r, n) := RunSends(SettleSend(StartSend(s, questions[0]), o), questions[1..], answers[1..]);
      (r, n + (if RefreshesHistory(o) then 1 else 0))
  }

  /** After N answered sends the transcript has grown by 2N messages that
      alternate user and assistant, in the order asked, N refreshes were
      issued, and the busy flag is clear. */
  lemma {:induction false} AnsweredSendsAlternate(s: AppState, questions: seq<string>, answers: seq<string>)
    requires |questions| == |answers|
    ensures var (r, refreshes) := RunSends(s, questions, answers);
      && |r.messages| == |s.messages| + 2 * |questions|
      && r.messages[..|s.messages|] == s.messages
      && (forall i :: 0 <= i < |questions| ==>
            r.messages[|s.messages| + 2 * i] == Message(User, questions[i]) &&
            r.messages[|s.messages| + 2 * i + 1] == Message(Assistant, answers[i]))
      && refreshes == |questions|
      && r.sessions == s.sessions
      && (questions != [] ==> !r.isLoading)
    decreases |questions|
  {
    if questions != [] {
      var o := Replied(None, answers[0]);
      var s1 := SettleSend(StartSend(s, questions[0]), o);
      SendAddsExchange(s, questions[0], o);
      AnsweredSendsAlternate(s1, questions[1..], answers[1..]);
      var (r, n) := RunSends(s1, questions[1..], answers[1..]);
      var k := |s.messages|;
      assert r.messages[..k + 2] == s1.messages by {
        assert r.messages[..k + 2] == r.messages[..|s1.messages|];
      }
      assert r.messages[..k] == s.messages by {
        assert r.messages[..k] == s1.messages[..k];
      }
      forall i | 0 <= i < |questions|
        ensures r.messages[k + 2 * i] == Message(User, questions[i])
        ensures r.messages[k + 2 * i + 1] == Message(Assistant, answers[i])
      {
        if i == 0 {
          assert r.messages[k] == s1.messages[k];
          assert r.messages[k + 1] == s1.messages[k + 1];
        } else {
          assert questions[i] == questions[1..][i - 1] && answers[i] == answers[1..][i - 1];
          assert k + 2 * i == |s1.messages| + 2 * (i - 1);
        }
      }
    }
  }

  /** Selecting the same session twice is selecting it once. */
  lemma SelectIdempotent(s: AppState, id: string)
    ensures SelectSession(SelectSession(s, id), id) == SelectSession(s, id)
  {
  }

  /** Starting a new chat and going back to the previous session restores
      that session's STORED transcript; the live transcript comes back only
      when it agreed with the stored one. */
  lemma NewChatThenBack(s: AppState, now: nat)
    ensures var r := SelectSession(NewChat(s, now), s.currentSessionId);
      && r.currentSessionId == s.currentSessionId
      && r.sessions == s.sessions
      && r.messages == StoredOrEmpty(s.sessions, s.currentSessionId)
      && (r == s <==> s.messages == StoredOrEmpty(s.sessions, s.currentSessionId))
  {
  }

  /** An upload in a session the table does not hold yet is lost on a round
      trip through a new chat: the upload does not refresh the table, and
      switching back reads the table. */
  lemma UploadLostOnSwitchBack(now: nat, later: nat, file: File, o: UploadOutcome)
    ensures var s := SettleUpload(StartUpload(Init(now)), file, o);
      && s.messages != []
      && SelectSession(NewChat(s, later), s.currentSessionId).messages == []
  {
  }

  /** A reply that settles after the user switched session lands in the
      live transcript of the session switched to, while the request went out
      under the session it was asked in. */
  lemma ReplyFollowsLiveTranscript(s: AppState, content: string, mode: Mode, now: nat, o: AskOutcome)
    ensures var r := SettleSend(NewChat(StartSend(s, content), now), o);
      && AskFor(s, content, mode).sessionId == s.currentSessionId
      && r.currentSessionId == SessionIdFor(now)
      && r.messages == [AskReply(o)]
  {
  }

  /** Only a fetched history changes the table; a failed fetch changes nothing. */
  lemma HistoryReplacesWholesale(s: AppState, o: HistoryOutcome)
    ensures LoadHistory(s, o).sessions == (if o.Fetched? then o.table else s.sessions)
    ensures LoadHistory(s, o).(sessions := s.sessions) == s
  {
  }

  // ---------------------------------------------------------------------
  // The controller

  class App {
    var sessions: SessionTable
    var currentSessionId: string
    var messages: seq<Message>
    var isLoading: bool

    /** The state the fields hold. */
    function State(): AppState
      reads this
    {
      AppState(sessions, currentSessionId, messages, isLoading)
    }

    /** Mounting: an id minted from the clock reading `now`. */
    constructor (now: nat)
      ensures State() == Init(now)
    {
      sessions := [];
      currentSessionId := SessionIdFor(now);
      messages := [];
      isLoading := false;
    }

    /** `fetchHistory`, once its request settled with `o`. */
    method FetchHistory(o: HistoryOutcome)
      modifies this
      ensures State() == LoadHistory(old(State()), o)
    {
      match o {
        case Fetched(table) =>
          sessions := table;
        case HistoryFailed =>
      }
    }

    /** The first half of `handleSendMessage`: echo, go busy, issue the ask. */
    method StartSendMessage(content: string, mode: Mode) returns (request: AskRequest)
      modifies this
      ensures State() == StartSend(old(State()), content)
      ensures request == AskFor(old(State()), content, mode)
    {
      messages := messages + [Message(User, content)];
      isLoading := true;
      request := AskRequest(content, currentSessionId, Id(mode));
    }

    /** The second half of `handleSendMessage`: the ask settled with `o`.
        Returns whether a history refresh is issued. */
    method SettleSendMessage(o: AskOutcome) returns (refresh: bool)
      modifies this
      ensures State() == SettleSend(old(State()), o)
      ensures refresh <==> RefreshesHistory(o)
    {
      refresh := false;
      match o {
        case Replied(error, answer) =>
          if error.Some? && error.value != "" {
            messages := messages + [Message(Assistant, ErrorPrefix + error.value)];
          } else {
            messages := messages + [Message(Assistant, answer)];
            refresh := true;
          }
        case TransportFailure =>
          messages := messages + [Message(Assistant, ConnectionErrorText)];
      }
      isLoading := false;
    }

    /** `handleSendMessage` when nothing else happens while the ask is in
        flight. */
    method SendMessage(content: string, mode: Mode, o: AskOutcome) returns (request: AskRequest, refresh: bool)
      modifies this
      ensures State() == SettleSend(StartSend(old(State()), content), o)
      ensures messages == old(messages) + [Message(User, content), AskReply(o)]
      ensures request == AskRequest(content, old(currentSessionId), Id(mode))
      ensures refresh <==> RefreshesHistory(o)
    {
      request := StartSendMessage(content, mode);
      refresh := SettleSendMessage(o);
      SendAddsExchange(old(State()), content, o);
    }

    /** The first half of `handleFileUpload`: go busy and post the file. */
    method StartFileUpload(file: File) returns (posted: File)
      modifies this
      ensures State() == StartUpload(old(State()))
      ensures posted == file
    {
      isLoading := true;
      posted := file;
    }

    /** The second half of `handleFileUpload`: the upload settled with `o`. */
    method SettleFileUpload(file: File, o: UploadOutcome)
      modifies this
      ensures State() == SettleUpload(old(State()), file, o)
    {
      match o {
        case Analyzed(filename, analysis) =>
          messages := messages + [Message(User, UploadedPrefix + file.name),
                                  Message(Assistant, AnalysisPrefix + filename + "\n\n" + analysis)];
        case UploadFailed =>
          messages := messages + [Message(Assistant, UploadFailedText)];
      }
      isLoading := false;
    }

    /** `handleSessionSelect`. */
    method HandleSessionSelect(id: string)
      modifies this
      ensures State() == SelectSession(old(State()), id)
    {
      currentSessionId := id;
      match Lookup(sessions, id) {
        case Some(ms) => messages := ms;
        case None => messages := [];
      }
    }

    /** `handleNewChat`, with the clock reading `now`. */
    method HandleNewChat(now: nat)
      modifies this
      ensures State() == NewChat(old(State()), now)
    {
      currentSessionId := SessionIdFor(now);
      messages := [];
    }

    /** A click on the side panel's row `i` selects exactly that row's session
        and shows its stored transcript. */
    method ClickSidebarEntry(i: nat)
      requires i < |sessions|
      modifies this
      ensures currentSessionId == Sidebar.EntriesAsWritten(old(sessions), old(currentSessionId))[i].id
      ensures messages == old(sessions)[|old(sessions)| - 1 - i].messages
      ensures State() == SelectSession(old(State()), currentSessionId)
    {
      var ids := Sidebar.SessionIds(sessions);
      LookupFinds(sessions, |sessions| - 1 - i);
      HandleSessionSelect(ids[i]);
    }
  }
}
