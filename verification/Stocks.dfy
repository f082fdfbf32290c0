/**
  The accounts of the messages of one socket: four multisets and the books. Every section of the
  engine is one of the moves below, and each move keeps the accounts in balance.
*/
module Stocks {
  import opened Protocol
  import opened Ledger

  datatype Stock = Stock(
    queued: multiset<Copy>,    // accepted, not yet handed to tv_write, or to be reported unsent
    timed: multiset<Copy>,     // requests with a live RequestTimer
    inflight: multiset<Copy>,  // copies libtv holds
    books: Books
  )

  /**
    A message is owed to the handler or discharged; its heap copy is queued, with libtv or freed;
    its RequestTimer, if it has one, is live or freed.
  */
  ghost predicate Balanced(k: Stock) {
    && k.queued + k.timed + k.books.discharged == k.books.accepted
    && k.queued + k.inflight + k.books.freed == k.books.made
    && k.timed + k.books.timersFreed == k.books.requests
  }

  /** Every copy is made once, and only a message that left the queue was written. */
  ghost predicate Sound(k: Stock, next: nat) {
    && Balanced(k)
    && (forall c :: k.books.made[c] <= 1)
    && (forall c :: k.books.made[c] > 0 ==> c.ptr < next)
    && (forall c :: k.books.requests[c] > 0 ==> c.body.Request?)
    && k.books.accepted <= k.books.made
    && k.books.written <= k.books.accepted
    && k.books.requests <= k.books.written
    && k.inflight <= k.books.written
    && (forall c :: k.queued[c] > 0 ==> k.books.written[c] == 0)
  }

  predicate InPlay(k: Stock, c: Copy) {
    c.body.Request? && k.queued[c] + k.timed[c] + k.inflight[c] > 0
  }

  ghost predicate DistinctIds(k: Stock) {
    forall a, b :: InPlay(k, a) && InPlay(k, b) && a.body.msgid == b.body.msgid ==> a == b
  }

  ghost predicate Accounted(k: Stock, next: nat) {
    Sound(k, next) && DistinctIds(k)
  }

  /** No request in play has the id of that message. */
  ghost predicate FreshIn(k: Stock, body: Message) {
    body.Request? ==> forall c :: InPlay(k, c) ==> c.body.msgid != body.msgid
  }

  // ---- Moves ----

  function Note(k: Stock, e: Event): Stock {
    k.(books := Post(k.books, e))
  }

  /** Send while connecting. */
  function Enqueue(k: Stock, c: Copy): Stock {
    Note(Note(k.(queued := k.queued + One(c)), Allocated(c)), Accepted(c, true))
  }

  /** Send refused by tv_write. */
  function Reject(k: Stock, c: Copy): Stock {
    Note(Note(k, Allocated(c)), Freed(c))
  }

  function Track(k: Stock, c: Copy): Stock {
    Note(k.(timed := if c.body.Request? then k.timed + One(c) else k.timed, inflight := k.inflight + One(c)),
         Written(c))
  }

  /** Send while connected. */
  function Admit(k: Stock, c: Copy): Stock {
    Track(Note(Note(k, Allocated(c)), Accepted(c, false)), c)
  }

  /** A queued message goes out. */
  function Flush(k: Stock, c: Copy): Stock {
    Track(k.(queued := k.queued - One(c)), c)
  }

  /** A message is reported without having been written. */
  function Drop(k: Stock, c: Copy, cause: Cause): Stock {
    Note(Note(k.(queued := k.queued - One(c)), Failed(c, cause)), Freed(c))
  }

  predicate Settles(e: Event, c: Copy) {
    e == Answered(c) || (e.Failed? && e.copy == c && e.cause != WriteError(false))
  }

  /** A request is answered or reported, and its RequestTimer goes. */
  function Settle(k: Stock, c: Copy, e: Event): Stock {
    Note(Note(k.(timed := k.timed - One(c)), TimerFreed(c)), e)
  }

  /** libtv gives a copy back. */
  function Release(k: Stock, c: Copy): Stock {
    Note(k.(inflight := k.inflight - One(c)), Freed(c))
  }

  /** Events about streams, and reports that settle nothing, leave the accounts alone. */
  predicate Neutral(e: Event) {
    match e
    case Allocated(_) => false
    case Accepted(_, _) => false
    case Written(_) => false
    case Freed(_) => false
    case TimerFreed(_) => false
    case Answered(_) => false
    case Failed(_, cause) => cause == WriteError(false)
    case _ => true
  }

  // ---- Each move keeps the accounts ----

  lemma Shrunk(k: Stock, t: Stock)
    requires DistinctIds(k)
    requires forall c :: InPlay(t, c) ==> InPlay(k, c)
    ensures DistinctIds(t)
  {
  }

  lemma Grown(k: Stock, t: Stock, c: Copy)
    requires DistinctIds(k) && FreshIn(k, c.body)
    requires forall x :: InPlay(t, x) ==> InPlay(k, x) || x == c
    ensures DistinctIds(t)
  {
  }

  lemma NoteKeeps(k: Stock, next: nat, e: Event)
    requires Accounted(k, next) && Neutral(e)
    ensures Accounted(Note(k, e), next)
  {
    Shrunk(k, Note(k, e));
  }

  lemma EnqueueBooks(k: Stock, c: Copy)
    ensures Enqueue(k, c)
            == k.(queued := k.queued + One(c),
                  books := k.books.(made := k.books.made + One(c), accepted := k.books.accepted + One(c)))
  {
  }

  lemma EnqueueSound(k: Stock, next: nat, c: Copy)
    requires Sound(k, next) && c.ptr == next
    ensures Sound(Enqueue(k, c), next + 1)
  {
    NothingKnown(k, next, c);
    EnqueueBooks(k, c);
    hide Enqueue;
  }

  lemma EnqueueKeeps(k: Stock, next: nat, body: Message)
    requires Accounted(k, next) && FreshIn(k, body)
    ensures Accounted(Enqueue(k, Copy(next, body)), next + 1)
  {
    var c := Copy(next, body);
    EnqueueSound(k, next, c);
    EnqueueBooks(k, c);
    hide Sound, Enqueue;
    Grown(k, Enqueue(k, c), c);
  }

  lemma RejectKeeps(k: Stock, next: nat, body: Message)
    requires Accounted(k, next)
    ensures Accounted(Reject(k, Copy(next, body)), next + 1)
  {
    var c := Copy(next, body);
    assert k.books.made[c] == 0;
    Shrunk(k, Reject(k, c));
  }

  lemma AdmitBooks(k: Stock, c: Copy)
    ensures var t := Admit(k, c);
            && t.queued == k.queued && t.inflight == k.inflight + One(c)
            && t.timed == (if c.body.Request? then k.timed + One(c) else k.timed)
            && t.books.made == k.books.made + One(c) && t.books.accepted == k.books.accepted + One(c)
            && t.books.written == k.books.written + One(c)
            && t.books.requests == (if c.body.Request? then k.books.requests + One(c) else k.books.requests)
            && t.books.discharged == (if c.body.Request? then k.books.discharged else k.books.discharged + One(c))
            && t.books.freed == k.books.freed && t.books.timersFreed == k.books.timersFreed
  {
  }

  lemma AdmitBalanced(k: Stock, c: Copy)
    requires Balanced(k)
    ensures Balanced(Admit(k, c))
  {
    AdmitBooks(k, c);
    hide Admit;
  }

  /** A new copy may enter every account: nothing was known about it before. */
  lemma GrownSound(k: Stock, t: Stock, next: nat, c: Copy)
    requires Sound(k, next) && Balanced(t) && c.ptr == next
    requires t.queued == k.queued && t.inflight == k.inflight + One(c)
    requires t.books.made == k.books.made + One(c) && t.books.accepted == k.books.accepted + One(c)
    requires t.books.written == k.books.written + One(c)
    requires t.books.requests == k.books.requests || (c.body.Request? && t.books.requests == k.books.requests + One(c))
    ensures Sound(t, next + 1)
  {
    NothingKnown(k, next, c);
    hide Balanced;
    BothGrow(k.books.accepted, k.books.made, c);
    BothGrow(k.books.written, k.books.accepted, c);
    BothGrow(k.books.requests, k.books.written, c);
    BothGrow(k.inflight, k.books.written, c);
    assert forall x :: t.books.made[x] == k.books.made[x] + (if x == c then 1 else 0);
  }

  lemma BothGrow(a: multiset<Copy>, b: multiset<Copy>, c: Copy)
    requires a <= b
    ensures a + One(c) <= b + One(c) && a <= b + One(c)
  {
  }

  lemma NothingKnown(k: Stock, next: nat, c: Copy)
    requires Sound(k, next) && c.ptr == next
    ensures k.books.made[c] == 0 && k.queued[c] == 0 && k.books.written[c] == 0
  {
    assert (k.queued + k.inflight + k.books.freed)[c] == k.books.made[c];
  }

  lemma AdmitSound(k: Stock, next: nat, body: Message)
    requires Sound(k, next)
    ensures Sound(Admit(k, Copy(next, body)), next + 1)
  {
    var c := Copy(next, body);
    AdmitBalanced(k, c);
    AdmitBooks(k, c);
    hide Admit, Sound, Balanced;
    GrownSound(k, Admit(k, c), next, c);
  }

  lemma AdmitKeeps(k: Stock, next: nat, body: Message)
    requires Accounted(k, next) && FreshIn(k, body)
    ensures Accounted(Admit(k, Copy(next, body)), next + 1)
  {
    hide Sound, Admit;
    AdmitSound(k, next, body);
    AdmitBooks(k, Copy(next, body));
    Grown(k, Admit(k, Copy(next, body)), Copy(next, body));
  }

  lemma FlushBalanced(k: Stock, c: Copy)
    requires Balanced(k) && c in k.queued
    ensures Balanced(Flush(k, c))
  {
    var t := Flush(k, c);
    assert t.queued + One(c) == k.queued && t.inflight == k.inflight + One(c);
    if c.body.Request? {
      assert t.timed == k.timed + One(c) && t.books.discharged == k.books.discharged;
    } else {
      assert t.timed == k.timed && t.books.discharged == k.books.discharged + One(c);
    }
  }

  lemma FlushBooks(k: Stock, c: Copy)
    ensures var t := Flush(k, c);
            && t.queued == k.queued - One(c) && t.inflight == k.inflight + One(c)
            && t.timed == (if c.body.Request? then k.timed + One(c) else k.timed)
            && t.books.made == k.books.made && t.books.accepted == k.books.accepted
            && t.books.written == k.books.written + One(c)
            && t.books.requests == (if c.body.Request? then k.books.requests + One(c) else k.books.requests)
  {
  }

  /** A queued copy was never written, and is there once. */
  lemma QueuedOnce(k: Stock, next: nat, c: Copy)
    requires Sound(k, next) && c in k.queued
    ensures k.queued[c] == 1 && k.books.accepted[c] == 1 && k.books.written[c] == 0
  {
    assert k.books.accepted[c] <= k.books.made[c] <= 1;
    assert (k.queued + k.timed + k.books.discharged)[c] == k.books.accepted[c];
  }

  lemma FlushSound(k: Stock, next: nat, c: Copy)
    requires Sound(k, next) && c in k.queued
    ensures Sound(Flush(k, c), next)
  {
    hide Flush, Balanced;
    QueuedOnce(k, next, c);
    FlushKeepsBalance(k, next, c);
    FlushBooks(k, c);
    OneMoreFits(k.books.written, k.books.accepted, c);
    BothGrow(k.books.requests, k.books.written, c);
    BothGrow(k.inflight, k.books.written, c);
  }

  lemma FlushKeepsBalance(k: Stock, next: nat, c: Copy)
    requires Sound(k, next) && c in k.queued
    ensures Balanced(Flush(k, c))
  {
    hide Flush, Balanced;
    FlushBalanced(k, c);
  }

  lemma OneMoreFits(a: multiset<Copy>, b: multiset<Copy>, c: Copy)
    requires a <= b && a[c] < b[c]
    ensures a + One(c) <= b
  {
  }

  lemma FlushKeeps(k: Stock, next: nat, c: Copy)
    requires Accounted(k, next) && c in k.queued
    ensures Accounted(Flush(k, c), next)
  {
    hide Sound, Flush;
    FlushSound(k, next, c);
    FlushBooks(k, c);
    Shrunk(k, Flush(k, c));
  }

  lemma DropBooks(k: Stock, c: Copy, cause: Cause)
    requires !cause.WriteError?
    ensures Drop(k, c, cause)
            == k.(queued := k.queued - One(c),
                  books := k.books.(discharged := k.books.discharged + One(c), freed := k.books.freed + One(c),
                                    terminal := k.books.terminal + One(c)))
  {
  }

  lemma DropSound(k: Stock, next: nat, c: Copy, cause: Cause)
    requires Sound(k, next) && c in k.queued && !cause.WriteError?
    ensures Sound(Drop(k, c, cause), next)
  {
    DropBooks(k, c, cause);
    hide Drop;
    assert k.queued - One(c) + One(c) == k.queued;
  }

  lemma DropKeeps(k: Stock, next: nat, c: Copy, cause: Cause)
    requires Accounted(k, next) && c in k.queued && !cause.WriteError?
    ensures Accounted(Drop(k, c, cause), next)
  {
    DropSound(k, next, c, cause);
    Shrunk(k, Drop(k, c, cause));
  }

  lemma SettleBooks(b: Books, c: Copy, e: Event)
    requires Settles(e, c)
    ensures Post(b, e) == b.(terminal := b.terminal + One(c), discharged := b.discharged + One(c))
  {
  }

  lemma SettleCommutes(k: Stock, c: Copy, e: Event)
    requires Settles(e, c)
    ensures Note(Note(k, e), TimerFreed(c)) == Note(Note(k, TimerFreed(c)), e)
  {
  }

  lemma SettleBooked(k: Stock, c: Copy, e: Event)
    requires Settles(e, c)
    ensures Settle(k, c, e)
            == k.(timed := k.timed - One(c),
                  books := k.books.(timersFreed := k.books.timersFreed + One(c),
                                    discharged := k.books.discharged + One(c),
                                    terminal := k.books.terminal + One(c)))
  {
    SettleBooks(Post(k.books, TimerFreed(c)), c, e);
  }

  lemma SettleSound(k: Stock, next: nat, c: Copy, e: Event)
    requires Sound(k, next) && c in k.timed && Settles(e, c)
    ensures Sound(Settle(k, c, e), next)
  {
    SettleBooked(k, c, e);
    hide Settles, Settle;
    assert k.timed - One(c) + One(c) == k.timed;
  }

  lemma SettleKeeps(k: Stock, next: nat, c: Copy, e: Event)
    requires Accounted(k, next) && c in k.timed && Settles(e, c)
    ensures Accounted(Settle(k, c, e), next)
  {
    SettleSound(k, next, c, e);
    Shrunk(k, Settle(k, c, e));
  }

  lemma ReleaseSound(k: Stock, next: nat, c: Copy)
    requires Sound(k, next) && c in k.inflight
    ensures Sound(Release(k, c), next)
  {
    ReleaseBooks(k, c);
    hide Release;
    assert k.inflight - One(c) + One(c) == k.inflight;
  }

  lemma ReleaseBooks(k: Stock, c: Copy)
    ensures Release(k, c)
            == k.(inflight := k.inflight - One(c), books := k.books.(freed := k.books.freed + One(c)))
  {
  }

  lemma ReleaseKeeps(k: Stock, next: nat, c: Copy)
    requires Accounted(k, next) && c in k.inflight
    ensures Accounted(Release(k, c), next)
  {
    ReleaseSound(k, next, c);
    ReleaseBooks(k, c);
    hide Sound, Release;
    Shrunk(k, Release(k, c));
  }
}
