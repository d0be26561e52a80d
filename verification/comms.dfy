/** Results and errors of the messaging protocol.
    The source reports every failure as a `String`; here each failure is a
    value of `Error`, and `Text` renders the ones whose wording is fixed. */
module Comms {

  datatype Option<+T> = None | Some(value: T)

  /** Every way a client or server operation can fail. */
  datatype Error =
    | UnexpectedHandshake(client: string, boundTo: string)  // client already bound to a server
    | CannotIngest(client: string)                          // client has reached its Post limit
    | AlreadyExists(addr: string)                           // `open` on an address already in the table
    | HaltedConnection(addr: string)                        // `send` through a halted connection
    | NoConnection(addr: string)                            // `send` to an address never opened
    | ClosedConnection(addr: string)                        // `send` through a closed connection
  {
    /** The source fixes the wording of every error except the two not-open ones. */
    predicate HasFixedText() {
      !NoConnection? && !ClosedConnection?
    }
  }

  datatype Result<+T> = Ok(value: T) | Err(error: Error)

  /** The message the source reports for `e`. Each text carries its
      argument at a fixed place, and the characters named below tell the
      four kinds of text apart. */
  function Text(e: Error): (s: string)
    requires e.HasFixedText()
    ensures |s| >= 2
    ensures e.UnexpectedHandshake? ==> s[|s| - 2] == '\''
    ensures e.CannotIngest? ==>
      && s[1] == 'l' && s[|s| - 2] == 's'
      && |s| == |e.client| + 38 && s[8..8 + |e.client|] == e.client
    ensures e.AlreadyExists? ==>
      && s[1] == 'a' && s[|s| - 2] == 's'
      && |s| == |e.addr| + 56 && s[27..27 + |e.addr|] == e.addr
    ensures e.HaltedConnection? ==>
      && s[|s| - 2] == ')'
      && |s| == |e.addr| + 57 && s[54..54 + |e.addr|] == e.addr
  {
    match e
    case UnexpectedHandshake(name, addr) =>
      "Client '" + name + "' received unexpected handshake. Already connected to '" + addr + "'."
    case CannotIngest(name) =>
      "Client '" + name + "' cannot ingest more messages."
    case AlreadyExists(addr) =>
      "Cannot open connection to '" + addr + "'. Connection already exists."
    case HaltedConnection(addr) =>
      "Tried to send a message through a halted connection ('" + addr + "')."
  }

  /** The text is enough to tell the error apart: two fixed texts that are
      equal come from the same error (a handshake conflict is excluded from
      the comparison with itself, since a client name may contain the rest
      of its sentence). */
  lemma TextIdentifiesError(e1: Error, e2: Error)
    requires e1.HasFixedText() && e2.HasFixedText()
    requires !(e1.UnexpectedHandshake? && e2.UnexpectedHandshake?)
    requires Text(e1) == Text(e2)
    ensures e1 == e2
  {
    var s := Text(e1);
    if e1.CannotIngest? && e2.CannotIngest? {
      assert s[8..8 + |e1.client|] == e1.client;
      assert s[8..8 + |e2.client|] == e2.client;
    } else if e1.AlreadyExists? && e2.AlreadyExists? {
      assert s[27..27 + |e1.addr|] == e1.addr;
      assert s[27..27 + |e2.addr|] == e2.addr;
    } else if e1.HaltedConnection? && e2.HaltedConnection? {
      assert s[54..54 + |e1.addr|] == e1.addr;
      assert s[54..54 + |e2.addr|] == e2.addr;
    }
  }
}
