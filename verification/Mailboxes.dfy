/** A mailbox of the destination, as deletion sees it: numbered messages, of which the caller knows `T`. */
module Mailboxes {
  import opened Wrappers
  import opened StateStore

  class Mailbox<T> {
    var held: map<Uid, T>

    constructor (held: map<Uid, T>)
      ensures this.held == held
    {
      this.held := held;
    }

    /** `stopped`, when the command fails, is what it may have expunged before it did. */
    method DeleteMessages(uids: set<Uid>, stopped: Option<set<Uid>>) returns (ok: bool)
      modifies this
      ensures ok <==> stopped.None?
      ensures held == old(held) - (if stopped.None? then uids else uids * stopped.value)
    {
      ok := stopped.None?;
      held := held - (if stopped.None? then uids else uids * stopped.value);
    }
  }
}
