/**
 * The composer under the transcript: a text box, a staged file, the mode
 * bar, and the rule that turns a submit into an upload, a send, or nothing.
 */
module Input {
  import opened Wrappers
  import opened Text
  import opened Modes

  /** A file picked in the file dialog; only its name matters here. */
  datatype File = File(name: string)

  /** What a submit hands to the conversation controller. */
  datatype SubmitAction = Ignore | Upload(file: File) | Send(text: string, mode: Mode)

  /** The condition under which a submit does something. */
  predicate SubmitAccepted(message: string, file: Option<File>, isLoading: bool) {
    (Trim(message) != "" || file.Some?) && !isLoading
  }

  /** The condition under which the send button is disabled. */
  predicate SubmitDisabled(message: string, file: Option<File>, isLoading: bool)
    ensures SubmitDisabled(message, file, isLoading) <==> !SubmitAccepted(message, file, isLoading)
    ensures !isLoading && file.None? ==> (SubmitDisabled(message, file, isLoading) <==> Blank(message))
  {
    isLoading || (Trim(message) == "" && file.None?)
  }

  /** What a submit does with the composer's state: nothing when the button
      would be disabled; otherwise an upload of the staged file if there is
      one, and else a send of the untrimmed text with the selected mode. */
  function Decide(message: string, file: Option<File>, mode: Mode, isLoading: bool): (a: SubmitAction)
    ensures a.Ignore? <==> SubmitDisabled(message, file, isLoading)
    ensures a.Ignore? ==> isLoading || Blank(message)
    ensures a.Upload? <==> !isLoading && file.Some?
    ensures a.Upload? ==> a.file == file.value
    ensures a.Send? <==> !isLoading && file.None? && !Blank(message)
    ensures a.Send? ==> a.text == message && a.mode == mode
  {
    if SubmitAccepted(message, file, isLoading) then
      if file.Some? then Upload(file.value) else Send(message, mode)
    else Ignore
  }

  /** The composer's state: the text typed, the mode selected, the file staged. */
  class MessageInput {
    var message: string
    var selectedMode: Mode
    var file: Option<File>

    /** Empty text, no file, and the default mode `exam`. */
    constructor ()
      ensures message == "" && selectedMode == DefaultMode && file == None
    {
      message := "";
      selectedMode := DefaultMode;
      file := None;
    }

    /** Typing into the text box; the box is disabled while a request is in flight. */
    method Edit(text: string, isLoading: bool)
      modifies this`message
      ensures message == if isLoading then old(message) else text
    {
      if !isLoading {
        message := text;
      }
    }

    /** A click on a mode button selects that mode, busy or not. */
    method ChooseMode(m: Mode)
      modifies this`selectedMode
      ensures selectedMode == m
    {
      selectedMode := m;
    }

    /** The file dialog closed: `chosen` is its first file, if any. A dialog
        closed without a file leaves the staged file as it was. */
    method ChooseFile(chosen: Option<File>)
      modifies this`file
      ensures file == if chosen.Some? then chosen else old(file)
    {
      if chosen.Some? {
        file := chosen;
      }
    }

    /** Submitting the form. An upload clears the staged file and keeps the
        text; a send clears the text. The mode never changes. */
    method Submit(isLoading: bool) returns (action: SubmitAction)
      modifies this`message, this`file
      ensures action == Decide(old(message), old(file), selectedMode, isLoading)
      ensures message == if action.Send? then "" else old(message)
      ensures file == if action.Upload? then None else old(file)
    {
      action := Ignore;
      if (Trim(message) != "" || file.Some?) && !isLoading {
        if file.Some? {
          action := Upload(file.value);
          file := None;
        } else {
          action := Send(message, selectedMode);
          message := "";
        }
      }
    }

    /** A key pressed in the text box: Enter without Shift submits by the
        same rule as the button; any other key submits nothing. */
    method KeyDown(key: string, shift: bool, isLoading: bool) returns (action: SubmitAction)
      modifies this`message, this`file
      ensures key == "Enter" && !shift ==> action == Decide(old(message), old(file), selectedMode, isLoading)
      ensures !(key == "Enter" && !shift) ==> action == Ignore && message == old(message) && file == old(file)
      ensures message == if action.Send? then "" else old(message)
      ensures file == if action.Upload? then None else old(file)
    {
      action := Ignore;
      if key == "Enter" && !shift {
        action := Submit(isLoading);
      }
    }
  }
}
