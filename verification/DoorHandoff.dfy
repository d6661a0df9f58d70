/** The ingestion door's waiter registry (internal/hub/door.go): how a completion
    that may come before, during or after an offer's registration reaches it.

    The functions on `Desk` are the lock regions; `Door` is the program's object. */
module DoorHandoff {
  import opened Basics

  datatype Desk<Id, Chan, Ans> = Desk(waiters: map<Id, Chan>, parked: map<Id, Ans>)

  /** A completion takes the waiter out, or parks its answer. */
  function Completed<Id, Chan, Ans>(d: Desk<Id, Chan, Ans>, id: Id, a: Ans): (Desk<Id, Chan, Ans>, Option<Chan>) {
    if id in d.waiters then (d.(waiters := d.waiters - {id}), Some(d.waiters[id]))
    else (d.(parked := d.parked[id := a]), None)
  }

  /** A registration picks up a parked answer and leaves the waiter behind. */
  function Registered<Id, Chan, Ans>(d: Desk<Id, Chan, Ans>, id: Id, ch: Chan): (Desk<Id, Chan, Ans>, Option<Ans>) {
    (Desk(d.waiters[id := ch], d.parked - {id}),
     if id in d.parked then Some(d.parked[id]) else None)
  }

  function Cleaned<Id, Chan, Ans>(d: Desk<Id, Chan, Ans>, id: Id): Desk<Id, Chan, Ans> {
    Desk(d.waiters - {id}, d.parked - {id})
  }

  /** A channel with one buffered place. */
  class Chan<Ans> {
    var slot: Option<Ans>

    constructor ()
      ensures slot == None
    { slot := None; }

    /** A plain send blocks while the place is taken, so its caller must know it is not. */
    method Send(a: Ans)
      requires slot.None?
      modifies this
      ensures slot == Some(a)
    { slot := Some(a); }

    method TrySend(a: Ans)
      modifies this
      ensures slot == if old(slot).None? then Some(a) else old(slot)
    {
      if slot.None? { slot := Some(a); }
    }
  }

  class Door<Ans> {
    var waiters: map<string, Chan<Ans>>
    var pending: map<string, Chan<Ans>>
    var entryAnswer: map<string, Ans>

    ghost function View(): Desk<string, Chan<Ans>, Ans>
      reads this
    { Desk(waiters, entryAnswer) }

    constructor ()
      ensures View() == Desk(map[], map[]) && pending == map[]
    {
      waiters, pending, entryAnswer := map[], map[], map[];
    }

    method Complete(entryID: string, res: Ans)
      modifies this`waiters, this`entryAnswer, if entryID in waiters then {waiters[entryID]} else {}
      ensures View() == Completed(old(View()), entryID, res).0
      ensures var to := Completed(old(View()), entryID, res).1;
              to.Some? ==> to.value.slot == if old(to.value.slot).None? then Some(res) else old(to.value.slot)
    {
      if entryID in waiters {
        var ch := waiters[entryID];
        waiters := waiters - {entryID};
        ch.TrySend(res);
      } else {
        entryAnswer := entryAnswer[entryID := res];
      }
    }

    method Expect(key: string) returns (ch: Chan<Ans>)
      modifies this`pending
      ensures fresh(ch) && ch.slot == None && pending == old(pending)[key := ch]
    {
      ch := new Chan<Ans>();
      pending := pending[key := ch];
    }

    method Abandon(key: string)
      modifies this`pending
      ensures pending == old(pending) - {key}
    { pending := pending - {key}; }

    /** The critical section after a successful XADD. The parked answer is sent with
        the lock held, which cannot block: nothing was sent on the channel before. */
    method Register(key: string, entryID: string, ch: Chan<Ans>)
      requires ch.slot.None?
      modifies this, ch
      ensures View() == Registered(old(View()), entryID, ch).0
      ensures ch.slot == Registered(old(View()), entryID, ch).1
      ensures pending == old(pending) - {key}
    {
      if entryID in entryAnswer {
        ch.Send(entryAnswer[entryID]);
        entryAnswer := entryAnswer - {entryID};
      }
      waiters := waiters[entryID := ch];
      pending := pending - {key};
    }

    method Leave(key: string, entryID: string)
      modifies this
      ensures View() == Cleaned(old(View()), entryID) && pending == old(pending) - {key}
    {
      waiters := waiters - {entryID};
      pending := pending - {key};
      entryAnswer := entryAnswer - {entryID};
    }
  }
}
