/** The serial monitor page (`src/routes/serial-monitor.tsx`): a transcript
    kept as one string and rendered one paragraph per line, a send box whose
    messages are echoed into the transcript at once, and the page's own,
    simpler port selector. */
module SerialMonitor {
  import opened Common
  import Lines

  predicate IsNewline(c: char)
  {
    c == '\n'
  }

  /** The lines the page renders: `content.split("\n")`. */
  function Rendered(content: string): (lines: seq<string>)
    ensures |lines| == Lines.SepCount(content, IsNewline) + 1
    ensures forall i :: 0 <= i < |lines| ==> Lines.SepFree(lines[i], IsNewline)
  {
    Lines.Split(content, IsNewline)
  }

  const InitialContent := "A\nA\nA\nA\nA\nA\nA"

  /** The transcript the page starts with renders as seven lines "A". */
  lemma InitialLines()
    ensures Rendered(InitialContent) == ["A", "A", "A", "A", "A", "A", "A"]
  {
    var a := "A";
    Lines.SplitSepFree(a, IsNewline);
    var t1, l1 := a, [a];
    var t2, l2 := t1 + "\n" + a, l1 + [a];
    AppendLine(t1, a);
    var t3, l3 := t2 + "\n" + a, l2 + [a];
    AppendLine(t2, a);
    var t4, l4 := t3 + "\n" + a, l3 + [a];
    AppendLine(t3, a);
    var t5, l5 := t4 + "\n" + a, l4 + [a];
    AppendLine(t4, a);
    var t6, l6 := t5 + "\n" + a, l5 + [a];
    AppendLine(t5, a);
    var t7, l7 := t6 + "\n" + a, l6 + [a];
    AppendLine(t6, a);
    assert t7 == InitialContent;
  }

  /** Sending a line without a line break adds exactly that line. */
  lemma AppendLine(content: string, line: string)
    requires Lines.SepFree(line, IsNewline)
    ensures Rendered(content + "\n" + line) == Rendered(content) + [line]
  {
    Lines.SplitAtSep(content, '\n', line, IsNewline);
    assert content + "\n" + line == content + ['\n'] + line;
    Lines.SplitSepFree(line, IsNewline);
  }

  /** The optimistic echo seen through the rendering: the old lines stay as
      they were and the message's own lines follow them, so the last line
      shown is the last line of the message. */
  lemma EchoRendering(content: string, s: string)
    ensures Rendered(content + "\n" + s) == Rendered(content) + Rendered(s)
    ensures Rendered(content + "\n" + s)[|Rendered(content + "\n" + s)| - 1]
            == Rendered(s)[|Rendered(s)| - 1]
    ensures Lines.SepFree(s, IsNewline) ==>
              |Rendered(content + "\n" + s)| == |Rendered(content)| + 1
              && Rendered(content + "\n" + s)[|Rendered(content)|] == s
  {
    Lines.SplitAtSep(content, '\n', s, IsNewline);
    assert content + "\n" + s == content + ['\n'] + s;
    if Lines.SepFree(s, IsNewline) {
      Lines.SplitSepFree(s, IsNewline);
    }
  }

  /** The transcript card and its send box. */
  class SerialStream {
    var content: string
    var inputMessage: string

    constructor ()
      ensures content == InitialContent && inputMessage == ""
      ensures Rendered(content) == ["A", "A", "A", "A", "A", "A", "A"]
    {
      InitialLines();
      content := InitialContent;
      inputMessage := "";
    }

    /** Typing in the send box. */
    method EditInput(text: string)
      modifies this
      ensures inputMessage == text && content == old(content)
    {
      inputMessage := text;
    }

    /** `sendSerialMessage(s)`: the message is appended as a new line at once
        and the send box is cleared; nothing earlier is removed or altered. */
    method SendSerialMessage(s: string)
      modifies this
      ensures content == old(content) + "\n" + s && inputMessage == ""
      ensures content[..|old(content)|] == old(content)
      ensures Rendered(content) == Rendered(old(content)) + Rendered(s)
    {
      EchoRendering(content, s);
      content := content + "\n" + s;
      inputMessage := "";
    }
  }

  /** The page's own port selector: choosing a port only fills the field. */
  class SerialSelector {
    var portSelect: string
    var ports: seq<string>

    constructor ()
      ensures portSelect == "" && ports == ["/dev/usb1", "/dev/usb2"]
    {
      portSelect := "";
      ports := ["/dev/usb1", "/dev/usb2"];
    }

    /** Typing in the port field. */
    method EditPortInput(text: string)
      modifies this
      ensures portSelect == text && ports == old(ports)
    {
      portSelect := text;
    }

    /** `sendPort(p)`: sets the field and calls nothing on the host. */
    method SendPort(p: string)
      modifies this
      ensures portSelect == p && ports == old(ports)
    {
      portSelect := p;
    }

    /** `getAvailablePorts`: the list is replaced by a successful reply. */
    method GetAvailablePorts(reply: Result<seq<string>, string>)
      modifies this
      ensures ports == (if reply.Ok? then reply.value else old(ports))
      ensures portSelect == old(portSelect)
    {
      if reply.Ok? {
        ports := reply.value;
      }
    }
  }
}
