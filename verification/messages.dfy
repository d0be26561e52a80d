/** The three kinds of message and their display text. */
module Messages {
  import opened Comms

  datatype MessageType = Handshake | Post | Get
  {
    /** The bracketed token shown before a message's load. */
    function Header(): (h: string)
      ensures |h| >= 2 && h[0] == '[' && h[|h| - 1] == ']'
      ensures forall i :: 0 <= i < |h| ==> h[i] != '\n'
    {
      match this
      case Handshake => "[HANDSHAKE]"
      case Post => "[POST]"
      case Get => "[GET]"
    }
  }

  /** The message type a header token stands for; the reader of `Header`. */
  function TypeOfHeader(h: string): Option<MessageType> {
    if h == "[HANDSHAKE]" then Some(Handshake)
    else if h == "[POST]" then Some(Post)
    else if h == "[GET]" then Some(Get)
    else None
  }

  /** A Handshake carries the server's address in `load`; a Post carries any
      payload; a Get carries nothing of interest. */
  datatype Message = Message(msgType: MessageType, load: string)
  {
    /** The header, a newline, then the load. */
    function Content(): (s: string)
      ensures |s| == |msgType.Header()| + 1 + |load|
      ensures s[..|msgType.Header()|] == msgType.Header()
      ensures s[|msgType.Header()|] == '\n'
      ensures s[|msgType.Header()| + 1..] == load
    {
      msgType.Header() + "\n" + load
    }
  }

  /** The index of the first newline in `s`, or `|s|` if there is none. */
  function FirstNewline(s: string): (i: nat)
    ensures i <= |s|
    ensures i < |s| ==> s[i] == '\n'
    ensures forall j :: 0 <= j < i ==> s[j] != '\n'
  {
    if s == [] || s[0] == '\n' then 0 else 1 + FirstNewline(s[1..])
  }

  /** Splits a message's display text back into its type and load. */
  function ParseContent(s: string): Option<Message> {
    var i := FirstNewline(s);
    if i == |s| then None
    else
      match TypeOfHeader(s[..i])
      case None => None
      case Some(t) => Some(Message(t, s[i + 1..]))
  }

  /** The three header tokens, each distinct and mapped back to its type. */
  lemma HeaderTokens()
    ensures Handshake.Header() == "[HANDSHAKE]"
    ensures Post.Header() == "[POST]"
    ensures Get.Header() == "[GET]"
    ensures forall t: MessageType :: TypeOfHeader(t.Header()) == Some(t)
  {
  }

  /** The display text loses nothing: type and load are recovered from it. */
  lemma ContentRoundTrip(m: Message)
    ensures ParseContent(m.Content()) == Some(m)
  {
  }
}
