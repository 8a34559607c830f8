// mailbox/mailbox_bus.go and the parts of mailbox/mailbox.go it relies on: a
// registry of one mailbox per role, delivery by receiver, and a shared
// key/value space that is the global state's system-health map. The inbox
// channel is kept as the sequence of delivered messages.
module GoMailboxBus {
  import opened Wrappers
  import opened GoTypes
  import GoGlobalState

  /** The archive keeps the newest thousand messages. */
  const ArchiveCap := 1000

  class Mailbox {
    var receiver: string
    var inbox: seq<Message>
    var archive: seq<Message>

    constructor (receiver: string)
      ensures this.receiver == receiver && inbox == [] && archive == []
    {
      this.receiver := receiver;
      inbox, archive := [], [];
    }

    /** The bus's hand-over of a message to this mailbox (`m.Send(msg)`). */
    method Deliver(msg: Message)
      modifies this
      ensures inbox == old(inbox) + [msg]
      ensures receiver == old(receiver) && archive == old(archive)
    {
      inbox := inbox + [msg];
    }

    /** Appends, then drops the oldest entry once there are more than a thousand. */
    method ArchiveMessage(msg: Message)
      modifies this
      ensures archive == Bounded(old(archive), msg, ArchiveCap)
      ensures |old(archive)| <= ArchiveCap ==> |archive| <= ArchiveCap
      ensures receiver == old(receiver) && inbox == old(inbox)
    {
      archive := archive + [msg];
      if |archive| > ArchiveCap {
        archive := archive[1..];
      }
    }
  }

  class MailboxBus {
    var mailboxes: map<string, Mailbox>
    var globalState: GoGlobalState.GlobalState

    /** `NewMailboxBus`: no mailboxes and a new global state of its own. */
    constructor (now: nat)
      ensures mailboxes == map[] && fresh(globalState)
      ensures globalState.Snapshot() == GoGlobalState.Fields(map[], map[], [], now, map[], map[],
        GoGlobalState.EmptyDocuments(), GoGlobalState.EmptyRecords(), [], [], 0)
    {
      mailboxes := map[];
      globalState := new GoGlobalState.GlobalState(now);
    }

    /** A second registration for a role is refused and the first mailbox stays. */
    method RegisterMailbox(role: string, mailbox: Mailbox) returns (err: Option<string>)
      modifies this
      ensures role in old(mailboxes) ==> err.Some? && mailboxes == old(mailboxes)
      ensures role !in old(mailboxes) ==> err == None && mailboxes == old(mailboxes)[role := mailbox]
      ensures globalState == old(globalState)
    {
      if role in mailboxes {
        return Some("mailbox for role " + role + " already exists");
      }
      mailboxes := mailboxes[role := mailbox];
      return None;
    }

    function GetMailbox(role: string): (r: Result<Mailbox, string>)
      reads this
      ensures r.Ok? <==> role in mailboxes
      ensures r.Ok? ==> r.value == mailboxes[role]
    {
      if role in mailboxes then Ok(mailboxes[role]) else Err("mailbox for role " + role + " not found")
    }

    /** A nil message, or one for a role without a mailbox, is an error and
        nothing is delivered; otherwise the receiver's mailbox gets it. */
    method Send(msg: Option<Message>) returns (err: Option<string>)
      modifies if msg.Some? && msg.value.receiver in mailboxes then {mailboxes[msg.value.receiver]} else {}
      ensures msg.None? ==> err.Some?
      ensures msg.Some? && msg.value.receiver !in mailboxes ==> err.Some?
      ensures msg.Some? && msg.value.receiver in mailboxes ==>
        err == None && mailboxes[msg.value.receiver].inbox == old(mailboxes[msg.value.receiver].inbox) + [msg.value]
      ensures msg.Some? && msg.value.receiver in mailboxes ==>
        mailboxes[msg.value.receiver].archive == old(mailboxes[msg.value.receiver].archive)
        && mailboxes[msg.value.receiver].receiver == old(mailboxes[msg.value.receiver].receiver)
    {
      if msg.None? {
        return Some("message is nil");
      }
      var m := GetMailbox(msg.value.receiver);
      if m.Err? {
        return Some(m.error);
      }
      m.value.Deliver(msg.value);
      return None;
    }

    /** Publishes through the global state's `Set`; reading the key back gives the value. */
    method ShareState(key: string, value: Value) returns (err: Option<string>)
      modifies globalState
      ensures err == None
      ensures globalState.Snapshot() == old(globalState.Snapshot()).(
        systemHealth := old(globalState.systemHealth)[key := value], version := old(globalState.version) + 1)
      ensures GetSharedState(key) == Ok(value)
    {
      err := globalState.Set(key, value);
    }

    function GetSharedState(key: string): (r: Result<Value, string>)
      reads this, globalState
      ensures r.Ok? <==> key in globalState.systemHealth
      ensures r.Ok? ==> r.value == globalState.systemHealth[key]
    {
      globalState.Get(key)
    }

    function GetSharedStateVersion(): int
      reads this, globalState
    {
      globalState.version
    }
  }
}
