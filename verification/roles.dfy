/**
 * The two roles a signaling client may declare, and the wire tokens that
 * name them (webrtc_wrapper.py:35, 78, 93).
 */
module Roles {
  import opened Wrappers

  datatype Role = Sender | Receiver

  const SENDER: string := "sender"
  const RECEIVER: string := "receiver"

  /** The declaration tokens the broker accepts; they are also the keys of its two maps. */
  const RoleNames: set<string> := {SENDER, RECEIVER}

  /** The wire token of a role. */
  function Name(r: Role): (s: string)
    ensures s in RoleNames
  {
    match r
    case Sender => SENDER
    case Receiver => RECEIVER
  }

  /** Role validation: only the two role tokens are accepted, every other text is refused. */
  function ParseRole(text: string): (r: Option<Role>)
    ensures r.Some? <==> text in RoleNames
    ensures r.Some? ==> Name(r.value) == text
  {
    if text == SENDER then Some(Sender)
    else if text == RECEIVER then Some(Receiver)
    else None
  }

  /** Parsing the token of a role gives the role back. */
  lemma ParseName(r: Role)
    ensures ParseRole(Name(r)) == Some(r)
  {
  }

  /** Two roles with the same token are the same role. */
  lemma NameInjective(r1: Role, r2: Role)
    ensures Name(r1) == Name(r2) <==> r1 == r2
  {
  }

  /** The role a relayed message is routed to: the other one of the pair. */
  function Opposite(r: Role): (t: Role)
    ensures t != r
    ensures Name(t) == (if Name(r) == SENDER then RECEIVER else SENDER)
  {
    if r == Sender then Receiver else Sender
  }

  /** Routing twice returns to the origin. */
  lemma OppositeInvolutive(r: Role)
    ensures Opposite(Opposite(r)) == r
  {
  }
}
