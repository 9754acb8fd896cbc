/** The port selector of the front end's header (`src/utils/serial.tsx`): the
    text in the port field, the list of ports offered, and whether the last
    connection attempt succeeded. Each handler is one step; where a handler
    waits for the host, the host's reply is a parameter of the step that
    handles it. */
module PortSelector {
  import opened Common

  const InputClass := "input input-bordered join-item w-40"
  const ErrorClass := " input-error"

  class SerialSelector {
    var portSelect: string
    var ports: seq<string>
    var portConnected: bool
    /** The messages passed to `showError`, in order. */
    var errors: seq<string>

    /** The initial state: an empty field, one empty entry in the list, and
        the field not marked as failed. */
    constructor ()
      ensures portSelect == "" && ports == [""] && portConnected && errors == []
    {
      portSelect := "";
      ports := [""];
      portConnected := true;
      errors := [];
    }

    /** Typing in the port field. */
    method EditPortInput(text: string)
      modifies this
      ensures portSelect == text
      ensures ports == old(ports) && portConnected == old(portConnected) && errors == old(errors)
    {
      portSelect := text;
    }

    /** `sendPort(p)` up to the request: the field shows `p` before the host
        has answered, and `request` is the port asked of `set_port`. The
        reply is handled by `SetPortReplied`. */
    method SendPort(p: string) returns (request: string)
      modifies this
      ensures request == p && portSelect == p
      ensures ports == old(ports) && portConnected == old(portConnected) && errors == old(errors)
    {
      portSelect := p;
      request := p;
    }

    /** Submitting the form asks `set_port` for the port that is in the
        field. */
    method SubmitPortInput() returns (request: string)
      modifies this
      ensures request == old(portSelect) && portSelect == old(portSelect)
      ensures ports == old(ports) && portConnected == old(portConnected) && errors == old(errors)
    {
      request := SendPort(portSelect);
    }

    /** The host's answer to `set_port`: success marks the field connected;
        failure shows the error and marks the field failed. Either way the
        field keeps the port that was sent. */
    method SetPortReplied(reply: Result<string, string>)
      modifies this
      ensures portConnected == reply.Ok?
      ensures errors == old(errors) + (if reply.Err? then [reply.error] else [])
      ensures portSelect == old(portSelect) && ports == old(ports)
    {
      match reply
      case Ok(_) =>
        portConnected := true;
      case Err(e) =>
        errors := errors + [e];
        portConnected := false;
    }

    /** `getAvailablePorts`: the list is replaced on success; a failure has
        no handler and changes nothing. */
    method GetAvailablePorts(reply: Result<seq<string>, string>)
      modifies this
      ensures ports == (if reply.Ok? then reply.value else old(ports))
      ensures portSelect == old(portSelect) && portConnected == old(portConnected) && errors == old(errors)
    {
      if reply.Ok? {
        ports := reply.value;
      }
    }

    /** `getActivePort`: the field shows the host's active port, which may be
        "", and is cleared when the request fails. */
    method GetActivePort(reply: Result<string, string>)
      modifies this
      ensures portSelect == (if reply.Ok? then reply.value else "")
      ensures ports == old(ports) && portConnected == old(portConnected) && errors == old(errors)
    {
      match reply
      case Ok(p) => portSelect := p;
      case Err(_) => portSelect := "";
    }

    /** The class of the port field: the error style is added exactly when
        the last attempt failed. */
    function PortInputClass(): (c: string)
      reads this
      ensures |c| >= |InputClass| && c[..|InputClass|] == InputClass
      ensures c == InputClass + ErrorClass <==> !portConnected
      ensures c == InputClass <==> portConnected
    {
      var c := InputClass + (if portConnected then "" else ErrorClass);
      assert c[..|InputClass|] == InputClass;
      c
    }
  }
}
