/**
  The message field (src/app/components/MessageInput.tsx): typing replaces
  its text, and sending hands the raw text to `onSend` and clears it, unless
  the text is only white space.
*/
module MessageInput {
  import opened JsStrings

  class MessageInput {
    /** The `message` state: what the field shows. */
    var message: string
    /** The texts handed to `onSend` so far, oldest first. */
    var sent: seq<string>

    constructor ()
      ensures message == "" && sent == []
    {
      message := "";
      sent := [];
    }

    /** `onChange` */
    method OnChange(value: string)
      modifies this`message
      ensures message == value
    {
      message := value;
    }

    /** `handleSend` */
    method HandleSend() returns (didSend: bool)
      modifies this
      ensures didSend <==> !AllWhiteSpace(old(message))
      ensures didSend ==> sent == old(sent) + [old(message)] && message == ""
      ensures !didSend ==> sent == old(sent) && message == old(message)
    {
      TrimEmptyIff(message);
      didSend := Trim(message) != "";
      if didSend {
        sent := sent + [message];
        message := "";
      }
    }

    /** `onKeyDown`: Enter sends as the button does; any other key does nothing. */
    method OnKeyDown(key: string) returns (didSend: bool)
      modifies this
      ensures key != "Enter" ==> !didSend && sent == old(sent) && message == old(message)
      ensures key == "Enter" ==> (didSend <==> !AllWhiteSpace(old(message)))
      ensures key == "Enter" && didSend ==> sent == old(sent) + [old(message)] && message == ""
      ensures key == "Enter" && !didSend ==> sent == old(sent) && message == old(message)
    {
      didSend := false;
      if key == "Enter" {
        didSend := HandleSend();
      }
    }
  }
}
