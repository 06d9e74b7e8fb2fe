/** The small per-message handlers: public chat (`Format0EHandler`), the
    emote bound (`Format1DHandler`) and the party-status toggle
    (`Format2FHandler`). */
module Chat {
  import opened Common

  datatype ChatOutcome =
    | Command                       // a staff command, handed to the command parser
    | Say(line: string, kind: u8)   // the line shown to the audience of this kind
    | Disconnect                    // an unknown chat type

  predicate StartsWith(s: string, prefix: string) {
    |prefix| <= |s| && s[..|prefix|] == prefix
  }

  /** A chat message of `kind` from `username`: game masters and developers
      issue commands with a leading '/'; otherwise type 0 is a normal line
      ("name: text"), type 1 a shout ("name! text"), type 2 the text alone. */
  function ChatLine(username: string, staff: bool, kind: u8, text: string): (r: ChatOutcome)
    ensures r.Command? <==> staff && StartsWith(text, "/")
    ensures r.Disconnect? <==> !(staff && StartsWith(text, "/")) && kind > 2
    ensures r.Say? ==> r.kind == kind && kind <= 2
    ensures r.Say? && kind == 0 ==> r.line == username + ": " + text
    ensures r.Say? && kind == 1 ==> r.line == username + "! " + text
    ensures r.Say? && kind == 2 ==> r.line == text
  {
    if staff && StartsWith(text, "/") then Command
    else if kind == 0 then Say(username + ": " + text, kind)
    else if kind == 1 then Say(username + "! " + text, kind)
    else if kind == 2 then Say(text, kind)
    else Disconnect
  }

  /** Every line shown ends with the text as typed, and names the speaker
      unless it is of type 2. */
  lemma ChatLineKeepsText(username: string, staff: bool, kind: u8, text: string)
    requires ChatLine(username, staff, kind, text).Say?
    ensures var line := ChatLine(username, staff, kind, text).line;
            |text| <= |line| && line[|line| - |text|..] == text
    ensures kind != 2 ==> StartsWith(ChatLine(username, staff, kind, text).line, username)
  {
  }

  /** The animation an emote request shows: emote `id` is animation
      `id + 9` (cast to a byte); ids above 35 show nothing. */
  function Emote(id: int): (r: Option<u8>)
    ensures r.Some? <==> id <= 35
    ensures 0 <= id <= 35 ==> r == Some(id + 9)
    ensures r.Some? && 0 <= id ==> 9 <= r.value <= 44
    ensures r.Some? ==> r.value == ToByte(id + 9)
  {
    if id > 35 then None else Some(ToByte(id + 9))
  }

  datatype GroupStatus = AcceptingRequests | NotAcceptingRequests | OtherStatus(code: int)

  /** The party toggle: the two request states swap, any other is kept. */
  function ToggleParty(mode: GroupStatus): (r: GroupStatus)
    ensures mode.AcceptingRequests? <==> r.NotAcceptingRequests?
    ensures mode.NotAcceptingRequests? <==> r.AcceptingRequests?
    ensures mode.OtherStatus? ==> r == mode
  {
    match mode
    case AcceptingRequests => NotAcceptingRequests
    case NotAcceptingRequests => AcceptingRequests
    case OtherStatus(_) => mode
  }

  /** Toggling twice restores the status. */
  lemma TogglePartyTwice(mode: GroupStatus)
    ensures ToggleParty(ToggleParty(mode)) == mode
  {
  }
}
