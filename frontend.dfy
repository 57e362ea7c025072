/**
 * How the composer is wired to the controller: a submit in the composer
 * becomes the start of a send or of an upload, or nothing.
 */
module Frontend {
  import opened Wrappers
  import opened Text
  import opened Input
  import opened Conversation

  /** The request a submit puts on the wire. */
  datatype Request = Ask(ask: AskRequest) | Post(file: File)

  /** A submit with the controller's busy flag passed down to the composer.
      Nothing is sent exactly when the send button is disabled; a staged
      file is posted; otherwise the typed text is echoed and asked with the
      selected mode under the current session. */
  method Submit(app: App, input: MessageInput) returns (request: Option<Request>)
    modifies app, input
    ensures request.None? <==> SubmitDisabled(old(input.message), old(input.file), old(app.isLoading))
    ensures request.None? ==> app.State() == old(app.State())
    ensures request.Some? && request.value.Post? ==>
              && old(input.file) == Some(request.value.file)
              && app.State() == StartUpload(old(app.State()))
    ensures request.Some? && request.value.Ask? ==>
              && old(input.file) == None
              && !Blank(old(input.message))
              && request.value.ask == AskFor(old(app.State()), old(input.message), input.selectedMode)
              && app.State() == StartSend(old(app.State()), old(input.message))
    ensures input.selectedMode == old(input.selectedMode)
    ensures input.message == if request.Some? && request.value.Ask? then "" else old(input.message)
    ensures input.file == if request.Some? && request.value.Post? then None else old(input.file)
  {
    var action := input.Submit(app.isLoading);
    match action {
      case Ignore =>
        request := None;
      case Upload(file) =>
        var posted := app.StartFileUpload(file);
        request := Some(Post(posted));
      case Send(text, mode) =>
        var ask := app.StartSendMessage(text, mode);
        request := Some(Ask(ask));
    }
  }
}
