/** Messages and compacts as the provider sees them. */
module Transcript {
  import opened Common
  import opened Text
  import opened MessageEvents

  datatype SessionMessage = SessionMessage(message: Message, sessionSeq: int)

  datatype Compact = Compact(id: string, turnId: string, summary: string, start: int, end: int)

  datatype InputMessage = InputMessage(role: string, content: string)

  function Role(a: ActorType): string {
    match a
    case Account => "user"
    case Soul => "assistant"
    case System => "system"
  }

  function Texts(parts: seq<Part>): seq<string> {
    if parts == [] then []
    else (if parts[0].TextPart? then [parts[0].text] else []) + Texts(parts[1..])
  }

  function ContentOf(parts: seq<Part>): string {
    Join(Texts(parts), "\n\n")
  }

  function ToInputMessage(m: SessionMessage): Option<InputMessage> {
    var content := ContentOf(m.message.parts);
    if Blank(content) then None else Some(InputMessage(Role(m.message.actorType), content))
  }

  function CompactToInputMessage(c: Compact): Option<InputMessage> {
    if Blank(c.summary) then None
    else Some(InputMessage("system", "[compact " + Decimal(c.start) + "-" + Decimal(c.end) + "]\n" + c.summary))
  }
}
