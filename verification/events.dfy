/**
 * Events: what a server logs and tells its peers. An event that came from a peer carries the peer's
 * name as its origin; an event of the server's own users carries none.
 */
module Events {
  import opened Text

  /** What happened. A message names its target here only if it is not about a channel. */
  datatype Body =
    | JoinEvent(nick: string)
    | PartEvent(nick: string)
    | QuitEvent(nick: string)
    | MessageEvent(target: string, nick: string, text: string, notice: bool)
    | TopicEvent(nick: string)
    | MetaEvent(persistent: bool)
    | ArchiveEvent(newName: string)
    | OtherEvent(kind: string)

  datatype Event = Event(channel: Option<string>, body: Body, origin: string)

  /** The origin is tested for truth, so the empty one counts as none. */
  predicate Federated(e: Event) { e.origin != "" }

  /** Where a message goes. */
  function Target(e: Event): string
    requires e.body.MessageEvent?
  {
    if e.channel.Some? then e.channel.value else e.body.target
  }

  const SERVER_LINK := "server.link"
  const SERVER_UNLINK := "server.unlink"

  function SystemEvent(kind: string): Event { Event(None, OtherEvent(kind), "") }
}
