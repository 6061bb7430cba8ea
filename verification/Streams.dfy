/**
 Stream endpoints (internal/stream/stream.go) as a step system: two endpoints, each with
 any number of concurrent Sends and local Closes, one reader, and messages in flight that
 the bus may lose or reorder but never duplicates. A step is one critical section or one
 channel operation. Deadlines pass, payloads fail to decode and publications fail at any time.
 Receive channels may be of any capacity: a full one drops the message.
 */
module Streams {
  import opened Wrappers

  type Id = nat
  type Cause = string

  const TIMED_OUT: Cause := "request timed out"

  // ---------- the state the mutex guards ----------

  /** `pending` is the wait group, `acks` the Sends that wait for an acknowledgement. */
  datatype Core = Core(closed: bool, err: Option<Cause>, pending: int, acks: set<Id>)

  function CountPending(c: Core): Core {
    if c.closed then c else c.(pending := c.pending + 1)
  }

  function MarkClosed(c: Core, cause: Cause): Core {
    if c.closed then c else c.(closed := true, err := Some(cause))
  }

  class StreamBase {
    var closed: bool
    var err: Option<Cause>
    var pending: int
    var acks: set<Id>

    ghost function View(): Core
      reads this
    {
      Core(closed, err, pending, acks)
    }

    constructor ()
      ensures View() == Core(false, None, 0, {})
    {
      closed, err, pending, acks := false, None, 0, {};
    }

    /** addPending: fails, without counting, exactly when the stream is closed. */
    method AddPending() returns (e: Option<Cause>)
      requires closed <==> err.Some?
      modifies this
      ensures View() == CountPending(old(View())) && e == old(err)
      ensures e.None? <==> pending == old(pending) + 1
    {
      if !closed {
        pending := pending + 1;
      }
      return err;
    }

    /** setClosed: succeeds for the first closer only, whose cause then stays. */
    method SetClosed(cause: Cause) returns (e: Option<Cause>)
      requires closed <==> err.Some?
      modifies this
      ensures View() == MarkClosed(old(View()), cause)
      ensures e == old(err) && closed && err == Some(if old(closed) then old(err).value else cause)
    {
      if closed {
        return err;
      }
      closed := true;
      err := Some(cause);
      return None;
    }

    /** The critical section that handles an acknowledgement: only one handler gets the channel. */
    method TakeAck(id: Id) returns (ok: bool)
      modifies this
      ensures ok == (id in old(acks)) && View() == old(View()).(acks := old(acks) - {id})
    {
      ok := id in acks;
      acks := acks - {id};
    }
  }

  // ---------- one endpoint ----------

  datatype Msg = Data(id: Id) | Ack(id: Id) | Close(cause: Cause)

  /** A Send, from the moment it is counted. The outcome None is a nil error. */
  datatype Send =
    | Counted
    | Registered
    | Published
    | Ending(outcome: Option<Cause>)
    | Leaving(outcome: Option<Cause>)
    | Ended(outcome: Option<Cause>)

  datatype Reader =
    | Idle
    | Acking(id: Id)
    | Handling(id: Id)
    | Placed(id: Id)
    | Finishing
    | RemoteClosing

  /** The winning closer's next step; a remote close starts at CloseAdapter. */
  datatype Progress = Open | PublishClose | AwaitPending | CloseAdapter | Cancel | CloseQueue | Finished

  /** `remote` says which closer won. `counted` are the Sends in the pending count,
      `ackCloses`, `queueCloses` and `adapterCloses` count closes, `published`, `placed`
      and `parentCancelled` are history. */
  datatype End = End(
    core: Core,
    ctxDone: bool,
    parentCancelled: bool,
    sends: map<Id, Send>,
    counted: set<Id>,
    reader: Reader,
    progress: Progress,
    remote: bool,
    ackCloses: multiset<Id>,
    queueCloses: nat,
    adapterCloses: nat,
    published: set<Id>,
    placed: multiset<Id>,
    inbox: multiset<Msg>)

  function InitEnd(): End {
    End(Core(false, None, 0, {}), false, false, map[], {}, Idle, Open, false, multiset{}, 0, 0, {}, multiset{},
        multiset{})
  }

  datatype Action =
    | Lose(msg: Msg)
    | ParentCancels
    // a Send
    | Start(id: Id)
    | SerializeFails(id: Id, cause: Cause)
    | Register(id: Id)
    | PublishData(id: Id)
    | PublishDataFails(id: Id, cause: Cause)
    | SeeAck(id: Id)
    | SeeDone(id: Id)
    | Unregister(id: Id)
    | Uncount(id: Id)
    // the reader
    | TakeAck(id: Id)
    | CloseAck
    | TakeData(id: Id)
    | BadPayload
    | Place
    | QueueFull
    | PublishAck
    | PublishAckFails
    | Release
    | TakeClose(cause: Cause)
    // closers
    | LocalClose(cause: Cause)
    | SendClose(ok: bool)
    | WaitPending
    | AdapterClose
    | CancelContext
    | QueueClose

  predicate SendAt(e: End, id: Id, phase: Send) {
    id in e.sends && e.sends[id] == phase
  }

  predicate Enabled(e: End, a: Action) {
    match a
    case Lose(msg) => msg in e.inbox
    case ParentCancels => true
    case Start(id) => id !in e.sends && !e.core.closed
    case SerializeFails(id, _) => SendAt(e, id, Counted)
    case Register(id) => SendAt(e, id, Counted)
    case PublishData(id) => SendAt(e, id, Registered)
    case PublishDataFails(id, _) => SendAt(e, id, Registered)
    case SeeAck(id) => SendAt(e, id, Published) && id in e.ackCloses
    case SeeDone(id) => SendAt(e, id, Published)
    case Unregister(id) => id in e.sends && e.sends[id].Ending?
    case Uncount(id) => id in e.sends && e.sends[id].Leaving?
    case TakeAck(id) => e.reader.Idle? && Ack(id) in e.inbox
    case CloseAck => e.reader.Acking?
    case TakeData(id) => e.reader.Idle? && Data(id) in e.inbox
    case BadPayload => e.reader.Handling?
    case Place => e.reader.Handling?
    case QueueFull => e.reader.Handling?
    case PublishAck => e.reader.Placed?
    case PublishAckFails => e.reader.Placed?
    case Release => e.reader.Finishing?
    case TakeClose(cause) => e.reader.Idle? && Close(cause) in e.inbox
    case LocalClose(_) => !e.core.closed
    case SendClose(_) => e.progress.PublishClose?
    case WaitPending => e.progress.AwaitPending? && e.core.pending == 0
    case AdapterClose => e.progress.CloseAdapter?
    case CancelContext => e.progress.Cancel?
    case QueueClose => e.progress.CloseQueue?
  }

  function SetSend(e: End, id: Id, phase: Send): End {
    e.(sends := e.sends[id := phase])
  }

  function Take(e: End, m: Msg): End {
    e.(inbox := e.inbox - multiset{m})
  }

  predicate BySend(a: Action) {
    a.Start? || a.SerializeFails? || a.Register? || a.PublishData? || a.PublishDataFails? || a.SeeAck?
    || a.SeeDone? || a.Unregister? || a.Uncount?
  }

  predicate ByReader(a: Action) {
    a.TakeAck? || a.CloseAck? || a.TakeData? || a.BadPayload? || a.Place? || a.QueueFull? || a.PublishAck?
    || a.PublishAckFails? || a.Release?
  }

  function SendStep(e: End, a: Action): (f: End)
    requires BySend(a) && Enabled(e, a)
    ensures f.ctxDone == e.ctxDone && f.parentCancelled == e.parentCancelled
    ensures f.placed == e.placed && f.remote == e.remote && f.inbox == e.inbox
  {
    match a
    case Start(id) => e.(core := CountPending(e.core), sends := e.sends[id := Counted], counted := e.counted + {id})
    case SerializeFails(id, cause) => SetSend(e, id, Ending(Some(cause)))
    case Register(id) => SetSend(e, id, Registered).(core := e.core.(acks := e.core.acks + {id}))
    case PublishData(id) => SetSend(e, id, Published).(published := e.published + {id})
    case PublishDataFails(id, cause) => SetSend(e, id, Ending(Some(cause)))
    case SeeAck(id) => SetSend(e, id, Ending(None))
    case SeeDone(id) => SetSend(e, id, Ending(if e.ctxDone then e.core.err else Some(TIMED_OUT)))
    case Unregister(id) => SetSend(e, id, Leaving(e.sends[id].outcome)).(core := e.core.(acks := e.core.acks - {id}))
    case Uncount(id) =>
      SetSend(e, id, Ended(e.sends[id].outcome)).(
        core := e.core.(pending := e.core.pending - 1), counted := e.counted - {id})
  }

  function ReaderStep(e: End, a: Action): (f: End)
    requires ByReader(a) && Enabled(e, a)
    ensures f.ctxDone == e.ctxDone && f.parentCancelled == e.parentCancelled
    ensures f.sends == e.sends && f.published == e.published && f.remote == e.remote && f.inbox <= e.inbox
  {
    match a
    case TakeAck(id) =>
      Take(e, Ack(id)).(core := e.core.(acks := e.core.acks - {id}),
                        reader := if id in e.core.acks then Acking(id) else Idle)
    case CloseAck => e.(reader := Idle, ackCloses := e.ackCloses + multiset{e.reader.id})
    case TakeData(id) =>
      Take(e, Data(id)).(core := CountPending(e.core), reader := if e.core.closed then Idle else Handling(id))
    case BadPayload => e.(reader := Finishing)
    case Place => e.(reader := Placed(e.reader.id), placed := e.placed + multiset{e.reader.id})
    case QueueFull => e.(reader := Finishing)
    case PublishAck => e.(reader := Finishing)
    case PublishAckFails => e.(reader := Finishing)
    case Release => e.(reader := Idle, core := e.core.(pending := e.core.pending - 1))
  }

  /** The closers, the caller's context and the bus. */
  function CloserStep(e: End, a: Action): (f: End)
    requires !BySend(a) && !ByReader(a) && Enabled(e, a)
    ensures f.sends == e.sends && f.placed == e.placed && f.published == e.published && f.inbox <= e.inbox
  {
    match a
    case Lose(msg) => Take(e, msg)
    case ParentCancels => e.(ctxDone := true, parentCancelled := true)
    case TakeClose(cause) =>
      Take(e, Close(cause)).(
        core := MarkClosed(e.core, cause),
        reader := if e.core.closed then Idle else RemoteClosing,
        progress := if e.core.closed then e.progress else CloseAdapter,
        remote := e.remote || !e.core.closed)
    case LocalClose(cause) => e.(core := MarkClosed(e.core, cause), progress := PublishClose)
    case SendClose(_) => e.(progress := AwaitPending)
    case WaitPending => e.(progress := CloseAdapter)
    case AdapterClose => e.(progress := Cancel, adapterCloses := e.adapterCloses + 1)
    case CancelContext => e.(progress := CloseQueue, ctxDone := true)
    case QueueClose =>
      e.(progress := Finished, queueCloses := e.queueCloses + 1, reader := if e.remote then Idle else e.reader)
  }

  function Step(e: End, a: Action): End
    requires Enabled(e, a)
  {
    if BySend(a) then SendStep(e, a) else if ByReader(a) then ReaderStep(e, a) else CloserStep(e, a)
  }

  /** What a step hands to the bus for the other endpoint. */
  function Out(e: End, a: Action): multiset<Msg>
    requires Enabled(e, a)
  {
    match a
    case PublishData(id) => multiset{Data(id)}
    case PublishAck => multiset{Ack(e.reader.id)}
    case SendClose(ok) => if ok then multiset{Close(if e.core.err.Some? then e.core.err.value else "")} else multiset{}
    case _ => multiset{}
  }

  // ---------- what one endpoint keeps, whatever it receives ----------

  predicate ReaderCounted(r: Reader) {
    r.Handling? || r.Placed? || r.Finishing?
  }

  predicate After(p: Progress, q: Progress) {
    Rank(p) > Rank(q)
  }

  function Rank(p: Progress): nat {
    match p
    case Open => 0
    case PublishClose => 1
    case AwaitPending => 2
    case CloseAdapter => 3
    case Cancel => 4
    case CloseQueue => 5
    case Finished => 6
  }

  /** The once-only close and what hangs on it. */
  ghost predicate CloseInv(e: End) {
    && (e.core.closed <==> e.core.err.Some?)
    && (e.core.closed <==> !e.progress.Open?)
    && e.adapterCloses == (if After(e.progress, CloseAdapter) then 1 else 0)
    && e.queueCloses == (if e.progress.Finished? then 1 else 0)
    && (e.ctxDone <==> e.parentCancelled || After(e.progress, Cancel))
    && (e.remote ==> !e.progress.PublishClose? && !e.progress.AwaitPending?)
    && (e.remote && !e.progress.Open? ==> (e.reader.RemoteClosing? <==> !e.progress.Finished?))
    && (!e.remote ==> !e.reader.RemoteClosing?)
    && (e.remote ==> e.core.closed && !ReaderCounted(e.reader))
    && (!e.remote && After(e.progress, AwaitPending) ==> e.core.pending == 0)
  }

  ghost predicate CountInv(e: End) {
    && e.core.pending == |e.counted| + (if ReaderCounted(e.reader) then 1 else 0)
    && (forall id :: id in e.counted <==> id in e.sends && !e.sends[id].Ended?)
  }

  function AckTokens(e: End, id: Id): nat {
    (if id in e.core.acks then 1 else 0) + (if e.reader == Acking(id) then 1 else 0) + e.ackCloses[id]
  }

  ghost predicate AckInv(e: End) {
    forall id :: AckTokens(e, id) <= (if id !in e.sends || e.sends[id].Counted? then 0 else 1)
  }

  /** Published Sends are past publication. */
  ghost predicate PublishedInv(e: End) {
    forall id :: id in e.published ==> id in e.sends && !e.sends[id].Counted? && !e.sends[id].Registered?
  }

  ghost predicate EndInv(e: End) {
    CloseInv(e) && CountInv(e) && AckInv(e) && PublishedInv(e)
  }

  lemma InitEndInv()
    ensures EndInv(InitEnd())
  {
  }

  lemma SendKeepsClose(e: End, a: Action)
    requires CloseInv(e) && CountInv(e) && BySend(a) && Enabled(e, a)
    ensures CloseInv(SendStep(e, a))
  {
  }

  lemma CountingReaderKeepsClose(e: End, a: Action)
    requires CloseInv(e) && CountInv(e) && (a.TakeData? || a.Release?) && Enabled(e, a)
    ensures CloseInv(ReaderStep(e, a))
  {
  }

  lemma CloseFrame(e: End, f: End)
    requires CloseInv(e) && f.core.closed == e.core.closed && f.core.err == e.core.err
    requires f.core.pending == e.core.pending
    requires f.progress == e.progress && f.adapterCloses == e.adapterCloses && f.queueCloses == e.queueCloses
    requires f.ctxDone == e.ctxDone && f.parentCancelled == e.parentCancelled && f.remote == e.remote
    requires ReaderCounted(f.reader) == ReaderCounted(e.reader) && f.reader.RemoteClosing? == e.reader.RemoteClosing?
    ensures CloseInv(f)
  {
  }

  lemma OtherReaderKeepsClose(e: End, a: Action)
    requires CloseInv(e) && ByReader(a) && !a.TakeData? && !a.Release? && Enabled(e, a)
    ensures CloseInv(ReaderStep(e, a))
  {
    hide CountPending, CloseInv;
    CloseFrame(e, ReaderStep(e, a));
  }

  lemma ReaderKeepsClose(e: End, a: Action)
    requires CloseInv(e) && CountInv(e) && ByReader(a) && Enabled(e, a)
    ensures CloseInv(ReaderStep(e, a))
  {
    hide CloseInv, CountInv, Enabled, ReaderStep;
    if a.TakeData? || a.Release? {
      CountingReaderKeepsClose(e, a);
    } else {
      OtherReaderKeepsClose(e, a);
    }
  }

  lemma StartOfCloseKeepsClose(e: End, a: Action)
    requires CloseInv(e) && CountInv(e) && (a.LocalClose? || a.TakeClose?) && Enabled(e, a)
    ensures CloseInv(CloserStep(e, a))
  {
  }

  lemma RestOfCloseKeepsClose(e: End, a: Action)
    requires CloseInv(e) && CountInv(e) && Enabled(e, a)
    requires !BySend(a) && !ByReader(a) && !a.LocalClose? && !a.TakeClose?
    ensures CloseInv(CloserStep(e, a))
  {
    hide MarkClosed;
  }

  lemma CloserKeepsClose(e: End, a: Action)
    requires CloseInv(e) && CountInv(e) && !BySend(a) && !ByReader(a) && Enabled(e, a)
    ensures CloseInv(CloserStep(e, a))
  {
    hide CloseInv, CountInv, Enabled, CloserStep;
    if a.LocalClose? || a.TakeClose? {
      StartOfCloseKeepsClose(e, a);
    } else {
      RestOfCloseKeepsClose(e, a);
    }
  }

  /** A Send that only changes phase stays counted. */
  lemma PhaseKeepsCount(e: End, f: End, id: Id, phase: Send)
    requires CountInv(e) && id in e.sends && !e.sends[id].Ended? && !phase.Ended?
    requires f.sends == e.sends[id := phase] && f.counted == e.counted
    requires f.core.pending == e.core.pending && f.reader == e.reader
    ensures CountInv(f)
  {
  }

  lemma StartKeepsCount(e: End, id: Id)
    requires CountInv(e) && Enabled(e, Start(id))
    ensures CountInv(SendStep(e, Start(id)))
  {
    assert id !in e.counted;
  }

  lemma UncountKeepsCount(e: End, id: Id)
    requires CountInv(e) && Enabled(e, Uncount(id))
    ensures CountInv(SendStep(e, Uncount(id)))
  {
    assert id in e.counted;
  }

  lemma SendKeepsCount(e: End, a: Action)
    requires CountInv(e) && BySend(a) && Enabled(e, a)
    ensures CountInv(SendStep(e, a))
  {
    hide CountInv;
    if a.Start? {
      StartKeepsCount(e, a.id);
    } else if a.Uncount? {
      UncountKeepsCount(e, a.id);
    } else {
      PhaseKeepsCount(e, SendStep(e, a), a.id, SendStep(e, a).sends[a.id]);
    }
  }

  lemma CountingReaderKeepsCount(e: End, a: Action)
    requires CountInv(e) && (a.TakeData? || a.Release?) && Enabled(e, a)
    ensures CountInv(ReaderStep(e, a))
  {
  }

  lemma CountFrame(e: End, f: End)
    requires CountInv(e) && f.core.pending == e.core.pending && f.counted == e.counted && f.sends == e.sends
    requires ReaderCounted(f.reader) == ReaderCounted(e.reader)
    ensures CountInv(f)
  {
  }

  lemma OtherReaderKeepsCount(e: End, a: Action)
    requires CountInv(e) && ByReader(a) && !a.TakeData? && !a.Release? && Enabled(e, a)
    ensures CountInv(ReaderStep(e, a))
  {
    hide CountPending, CountInv;
    CountFrame(e, ReaderStep(e, a));
  }

  lemma ReaderKeepsCount(e: End, a: Action)
    requires CountInv(e) && ByReader(a) && Enabled(e, a)
    ensures CountInv(ReaderStep(e, a))
  {
    hide CloseInv, CountInv, Enabled, ReaderStep;
    if a.TakeData? || a.Release? {
      CountingReaderKeepsCount(e, a);
    } else {
      OtherReaderKeepsCount(e, a);
    }
  }

  lemma CloserKeepsCount(e: End, a: Action)
    requires CloseInv(e) && CountInv(e) && !BySend(a) && !ByReader(a) && Enabled(e, a)
    ensures CountInv(CloserStep(e, a))
  {
  }

  lemma SendKeepsAcks(e: End, a: Action)
    requires AckInv(e) && BySend(a) && Enabled(e, a)
    ensures AckInv(SendStep(e, a))
  {
  }

  lemma ReaderKeepsAcks(e: End, a: Action)
    requires AckInv(e) && ByReader(a) && Enabled(e, a)
    ensures AckInv(ReaderStep(e, a))
  {
  }

  lemma CloserKeepsAcks(e: End, a: Action)
    requires AckInv(e) && CloseInv(e) && !BySend(a) && !ByReader(a) && Enabled(e, a)
    ensures AckInv(CloserStep(e, a))
  {
  }

  lemma KeepsPublished(e: End, a: Action)
    requires PublishedInv(e) && Enabled(e, a)
    ensures PublishedInv(Step(e, a))
  {
  }

  lemma EndStep(e: End, a: Action)
    requires EndInv(e) && Enabled(e, a)
    ensures EndInv(Step(e, a))
  {
    hide CloseInv, CountInv, AckInv, PublishedInv, Enabled, SendStep, ReaderStep, CloserStep;
    KeepsPublished(e, a);
    if BySend(a) {
      SendKeepsClose(e, a);
      SendKeepsCount(e, a);
      SendKeepsAcks(e, a);
    } else if ByReader(a) {
      ReaderKeepsClose(e, a);
      ReaderKeepsCount(e, a);
      ReaderKeepsAcks(e, a);
    } else {
      CloserKeepsClose(e, a);
      CloserKeepsCount(e, a);
      CloserKeepsAcks(e, a);
    }
  }

  ghost predicate IsSafe(e: End, a: Action) {
    && (a.QueueClose? || a.Place? ==> e.queueCloses == 0)
    && (a.AdapterClose? ==> e.adapterCloses == 0)
    && (a.CloseAck? && e.reader.Acking? ==> e.ackCloses[e.reader.id] == 0)
    && (Enabled(e, a) ==> Step(e, a).core.pending >= 0)
  }

  lemma StepIsSafe(e: End, a: Action)
    requires EndInv(e) && Enabled(e, a)
    ensures IsSafe(e, a)
  {
    EndStep(e, a);
    assert a.CloseAck? ==> AckTokens(e, e.reader.id) <= 1;
  }

  lemma StepKeepsClosed(e: End, a: Action)
    requires EndInv(e) && Enabled(e, a) && e.core.closed
    ensures Step(e, a).core.closed && Step(e, a).core.err == e.core.err
    ensures Step(e, a).core.pending <= e.core.pending
  {
  }

  /** What a close waits for can move. */
  lemma ClosingEndMoves(e: End) returns (a: Action)
    requires EndInv(e) && e.core.closed && !e.progress.Finished?
    ensures Enabled(e, a) && !a.Lose? && !a.ParentCancels? && !a.LocalClose? && !a.Start?
  {
    match e.progress
    case PublishClose => a := SendClose(true);
    case AwaitPending =>
      if e.core.pending == 0 {
        a := WaitPending;
      } else if ReaderCounted(e.reader) {
        a := match e.reader case Handling(_) => Place case Placed(_) => PublishAck case _ => Release;
      } else {
        var id :| id in e.counted;
        a := match e.sends[id]
          case Counted => Register(id)
          case Registered => PublishData(id)
          case Published => SeeDone(id)
          case Ending(_) => Unregister(id)
          case _ => Uncount(id);
      }
    case CloseAdapter => a := AdapterClose;
    case Cancel => a := CancelContext;
    case CloseQueue => a := QueueClose;
  }

  function Weight(phase: Send): nat {
    match phase
    case Counted => 5
    case Registered => 4
    case Published => 3
    case Ending(_) => 2
    case Leaving(_) => 1
    case Ended(_) => 0
  }

  /** The Sends that have at least `k` steps to go. */
  function AtLeast(sends: map<Id, Send>, k: nat): set<Id> {
    set id | id in sends && Weight(sends[id]) >= k
  }

  function SendsLeft(sends: map<Id, Send>): nat {
    |AtLeast(sends, 1)| + |AtLeast(sends, 2)| + |AtLeast(sends, 3)| + |AtLeast(sends, 4)| + |AtLeast(sends, 5)|
  }

  predicate LosesOne(sends: map<Id, Send>, id: Id, phase: Send, k: nat)
    requires id in sends
  {
    |AtLeast(sends[id := phase], k)| == |AtLeast(sends, k)| - if Weight(phase) < k <= Weight(sends[id]) then 1 else 0
  }

  lemma OneSendMoves(sends: map<Id, Send>, id: Id, phase: Send, k: nat)
    requires id in sends && Weight(phase) < Weight(sends[id])
    ensures LosesOne(sends, id, phase, k)
  {
    var before, after := AtLeast(sends, k), AtLeast(sends[id := phase], k);
    assert after == if Weight(phase) < k <= Weight(sends[id]) then before - {id} else before;
  }

  lemma SendMoves(sends: map<Id, Send>, id: Id, phase: Send)
    requires id in sends && Weight(phase) < Weight(sends[id])
    ensures SendsLeft(sends[id := phase]) < SendsLeft(sends)
  {
    hide AtLeast, Weight;
    OneSendMoves(sends, id, phase, 1);
    OneSendMoves(sends, id, phase, 2);
    OneSendMoves(sends, id, phase, 3);
    OneSendMoves(sends, id, phase, 4);
    OneSendMoves(sends, id, phase, 5);
    WeightAtMost(sends[id]);
  }

  lemma WeightAtMost(phase: Send)
    ensures Weight(phase) <= 5
  {
  }

  /** What a closed endpoint has left to do with its Sends, its mail, the reader and the closer. */
  function StepsLeft(e: End): nat {
    SendsLeft(e.sends) + 2 * |e.inbox| + (6 - Rank(e.progress)) + ReaderLeft(e.reader)
  }

  lemma SendStepLowers(e: End, a: Action)
    requires BySend(a) && Enabled(e, a) && e.core.closed
    ensures StepsLeft(SendStep(e, a)) < StepsLeft(e)
  {
    hide SendsLeft;
    SendMoves(e.sends, a.id, SendStep(e, a).sends[a.id]);
  }

  lemma TakeLowersInbox(e: End, m: Msg)
    requires m in e.inbox
    ensures |Take(e, m).inbox| == |e.inbox| - 1
  {
  }

  function ReaderLeft(r: Reader): nat {
    match r
    case Acking(_) => 1
    case Handling(_) => 3
    case Placed(_) => 2
    case Finishing => 1
    case _ => 0
  }

  lemma OnlyReaderMoves(e: End, f: End)
    requires f.sends == e.sends && f.inbox == e.inbox && f.progress == e.progress
    requires ReaderLeft(f.reader) < ReaderLeft(e.reader)
    ensures StepsLeft(f) < StepsLeft(e)
  {
  }

  lemma MailTaken(e: End, f: End, m: Msg)
    requires m in e.inbox && f.inbox == Take(e, m).inbox
    requires f.sends == e.sends && f.progress == e.progress && ReaderLeft(f.reader) <= ReaderLeft(e.reader) + 1
    ensures StepsLeft(f) < StepsLeft(e)
  {
    hide SendsLeft, ReaderLeft, Rank;
    TakeLowersInbox(e, m);
  }

  lemma TakeStepLowers(e: End, a: Action)
    requires (a.TakeAck? || a.TakeData?) && Enabled(e, a) && e.core.closed
    ensures StepsLeft(ReaderStep(e, a)) < StepsLeft(e)
  {
    hide StepsLeft, CountPending;
    MailTaken(e, ReaderStep(e, a), if a.TakeAck? then Ack(a.id) else Data(a.id));
  }

  lemma HandlingStepLowers(e: End, a: Action)
    requires ByReader(a) && !a.TakeAck? && !a.TakeData? && Enabled(e, a)
    ensures StepsLeft(ReaderStep(e, a)) < StepsLeft(e)
  {
    hide StepsLeft, CountPending;
    OnlyReaderMoves(e, ReaderStep(e, a));
  }

  lemma ReaderStepLowers(e: End, a: Action)
    requires ByReader(a) && Enabled(e, a) && e.core.closed
    ensures StepsLeft(ReaderStep(e, a)) < StepsLeft(e)
  {
    hide StepsLeft, ReaderStep, Enabled;
    if a.TakeAck? || a.TakeData? {
      TakeStepLowers(e, a);
    } else {
      HandlingStepLowers(e, a);
    }
  }

  lemma CloserStepLowers(e: End, a: Action)
    requires !BySend(a) && !ByReader(a) && !a.ParentCancels? && Enabled(e, a) && e.core.closed
    ensures StepsLeft(CloserStep(e, a)) < StepsLeft(e)
  {
    hide SendsLeft, MarkClosed;
    if a.Lose? {
      TakeLowersInbox(e, a.msg);
    } else if a.TakeClose? {
      TakeLowersInbox(e, Close(a.cause));
    }
  }

  lemma StepLowers(e: End, a: Action)
    requires Enabled(e, a) && e.core.closed && !a.ParentCancels?
    ensures StepsLeft(Step(e, a)) < StepsLeft(e)
  {
    hide Enabled, StepsLeft, SendStep, ReaderStep, CloserStep;
    if BySend(a) {
      SendStepLowers(e, a);
    } else if ByReader(a) {
      ReaderStepLowers(e, a);
    } else {
      CloserStepLowers(e, a);
    }
  }

  // ---------- two endpoints ----------

  datatype Pair = Pair(client: End, server: End)

  function Deliver(e: End, msgs: multiset<Msg>): End {
    e.(inbox := e.inbox + msgs)
  }

  datatype Move = Move(atClient: bool, action: Action)

  predicate CanMove(s: Pair, m: Move) {
    Enabled(if m.atClient then s.client else s.server, m.action)
  }

  function MoveTo(s: Pair, m: Move): Pair
    requires CanMove(s, m)
  {
    if m.atClient then Pair(Step(s.client, m.action), Deliver(s.server, Out(s.client, m.action)))
    else Pair(Deliver(s.client, Out(s.server, m.action)), Step(s.server, m.action))
  }

  predicate EndsWithNil(x: End, id: Id) {
    id in x.sends
    && match x.sends[id]
       case Ending(outcome) => outcome.None?
       case Leaving(outcome) => outcome.None?
       case Ended(outcome) => outcome.None?
       case _ => false
  }

  predicate AckEvidence(x: End, y: End, id: Id) {
    Ack(id) in x.inbox || x.reader == Acking(id) || id in x.ackCloses || y.reader == Placed(id)
  }

  /** One message from `x` to `y`: it is in one place, and an acknowledgement proves it was placed. */
  ghost predicate Delivery(x: End, y: End, id: Id) {
    && y.inbox[Data(id)] + (if y.reader == Handling(id) then 1 else 0) + y.placed[id]
       <= (if id in x.published then 1 else 0)
    && (AckEvidence(x, y, id) ==> id in y.placed)
    && (EndsWithNil(x, id) ==> id in y.placed || x.parentCancelled)
  }

  ghost predicate PairInv(s: Pair) {
    && EndInv(s.client) && EndInv(s.server)
    && forall id :: Delivery(s.client, s.server, id) && Delivery(s.server, s.client, id)
  }

  lemma SendKeepsDelivery(x: End, y: End, a: Action, id: Id)
    requires EndInv(x) && BySend(a) && Enabled(x, a) && Delivery(x, y, id)
    ensures Delivery(SendStep(x, a), Deliver(y, Out(x, a)), id)
  {
    hide CountInv;
  }

  lemma AckingKeepsDelivery(x: End, y: End, a: Action, id: Id)
    requires (a.TakeAck? || a.CloseAck?) && Enabled(x, a) && Delivery(x, y, id)
    ensures Delivery(ReaderStep(x, a), Deliver(y, Out(x, a)), id)
  {
  }

  /** Delivery looks at few fields only. */
  lemma DeliveryFrame(x: End, y: End, x': End, y': End, id: Id)
    requires Delivery(x, y, id)
    requires x'.published == x.published && x'.sends == x.sends && x'.parentCancelled == x.parentCancelled
    requires y'.inbox[Data(id)] == y.inbox[Data(id)] && y'.reader == y.reader && y'.placed == y.placed
    requires AckEvidence(x', y', id) ==> AckEvidence(x, y, id)
    ensures Delivery(x', y', id)
  {
  }

  lemma AcksCarryNoData(x: End, a: Action, id: Id)
    requires ByReader(a) && Enabled(x, a)
    ensures Data(id) !in Out(x, a)
  {
  }

  lemma ReadingKeepsDelivery(x: End, y: End, a: Action, id: Id)
    requires ByReader(a) && !a.TakeAck? && !a.CloseAck? && Enabled(x, a) && Delivery(x, y, id)
    ensures Delivery(ReaderStep(x, a), Deliver(y, Out(x, a)), id)
  {
    hide CountPending, Delivery, Out;
    AcksCarryNoData(x, a, id);
    DeliveryFrame(x, y, ReaderStep(x, a), Deliver(y, Out(x, a)), id);
  }

  lemma ReaderKeepsDelivery(x: End, y: End, a: Action, id: Id)
    requires ByReader(a) && Enabled(x, a) && Delivery(x, y, id)
    ensures Delivery(ReaderStep(x, a), Deliver(y, Out(x, a)), id)
  {
    hide Delivery, Out, Enabled, ReaderStep, Deliver;
    if a.TakeAck? || a.CloseAck? {
      AckingKeepsDelivery(x, y, a, id);
    } else {
      ReadingKeepsDelivery(x, y, a, id);
    }
  }

  lemma CloserKeepsDelivery(x: End, y: End, a: Action, id: Id)
    requires !BySend(a) && !ByReader(a) && Enabled(x, a) && Delivery(x, y, id)
    ensures Delivery(CloserStep(x, a), Deliver(y, Out(x, a)), id)
  {
  }

  lemma SenderKeepsDelivery(x: End, y: End, a: Action, id: Id)
    requires EndInv(x) && Enabled(x, a) && Delivery(x, y, id)
    ensures Delivery(Step(x, a), Deliver(y, Out(x, a)), id)
  {
    hide Delivery, Out, SendStep, ReaderStep, CloserStep;
    if BySend(a) {
      SendKeepsDelivery(x, y, a, id);
    } else if ByReader(a) {
      ReaderKeepsDelivery(x, y, a, id);
    } else {
      CloserKeepsDelivery(x, y, a, id);
    }
  }

  lemma PlacingKeepsDelivery(x: End, y: End, a: Action, id: Id)
    requires (a.TakeData? || a.Place?) && Enabled(y, a) && Delivery(x, y, id)
    ensures Delivery(Deliver(x, Out(y, a)), ReaderStep(y, a), id)
  {
    hide CountPending;
  }

  lemma OtherReadingKeepsDelivery(x: End, y: End, a: Action, id: Id)
    requires ByReader(a) && !a.TakeData? && !a.Place? && Enabled(y, a) && Delivery(x, y, id)
    ensures Delivery(Deliver(x, Out(y, a)), ReaderStep(y, a), id)
  {
  }

  lemma ReceivingReaderKeepsDelivery(x: End, y: End, a: Action, id: Id)
    requires ByReader(a) && Enabled(y, a) && Delivery(x, y, id)
    ensures Delivery(Deliver(x, Out(y, a)), ReaderStep(y, a), id)
  {
    hide Delivery, Out, Enabled, ReaderStep, Deliver;
    if a.TakeData? || a.Place? {
      PlacingKeepsDelivery(x, y, a, id);
    } else {
      OtherReadingKeepsDelivery(x, y, a, id);
    }
  }

  lemma OtherReceiverKeepsDelivery(x: End, y: End, a: Action, id: Id)
    requires !ByReader(a) && Enabled(y, a) && Delivery(x, y, id)
    ensures Delivery(Deliver(x, Out(y, a)), Step(y, a), id)
  {
  }

  lemma ReceiverKeepsDelivery(x: End, y: End, a: Action, id: Id)
    requires Enabled(y, a) && Delivery(x, y, id)
    ensures Delivery(Deliver(x, Out(y, a)), Step(y, a), id)
  {
    hide *;
    if ByReader(a) {
      ReceivingReaderKeepsDelivery(x, y, a, id);
      StepOfReader(y, a);
    } else {
      OtherReceiverKeepsDelivery(x, y, a, id);
    }
  }

  lemma StepOfReader(e: End, a: Action)
    requires ByReader(a) && Enabled(e, a)
    ensures Step(e, a) == ReaderStep(e, a)
  {
    hide Enabled, SendStep, ReaderStep, CloserStep;
  }

  lemma DeliverKeepsEnd(e: End, msgs: multiset<Msg>)
    requires EndInv(e)
    ensures EndInv(Deliver(e, msgs))
  {
  }

  lemma PairStep(s: Pair, m: Move)
    requires PairInv(s) && CanMove(s, m)
    ensures PairInv(MoveTo(s, m))
  {
    hide EndInv, Delivery, Step, Out, Deliver, Enabled;
    var x, y := if m.atClient then s.client else s.server, if m.atClient then s.server else s.client;
    EndStep(x, m.action);
    DeliverKeepsEnd(y, Out(x, m.action));
    forall id ensures Delivery(Step(x, m.action), Deliver(y, Out(x, m.action)), id)
                   && Delivery(Deliver(y, Out(x, m.action)), Step(x, m.action), id) {
      assert Delivery(s.client, s.server, id) && Delivery(s.server, s.client, id);
      SenderKeepsDelivery(x, y, m.action, id);
      ReceiverKeepsDelivery(y, x, m.action, id);
    }
  }

  ghost predicate IsRun(states: seq<Pair>, moves: seq<Move>) {
    && |states| == |moves| + 1 && states[0] == Pair(InitEnd(), InitEnd())
    && forall i :: 0 <= i < |moves| ==> CanMove(states[i], moves[i]) && states[i + 1] == MoveTo(states[i], moves[i])
  }

  lemma {:induction false} RunInv(states: seq<Pair>, moves: seq<Move>, i: nat)
    requires IsRun(states, moves) && i < |states|
    ensures PairInv(states[i])
  {
    if i == 0 {
      InitEndInv();
    } else {
      RunInv(states, moves, i - 1);
      PairStep(states[i - 1], moves[i - 1]);
    }
  }

  // ---------- what every run keeps ----------

  function Sender(s: Pair, fromClient: bool): End {
    if fromClient then s.client else s.server
  }

  function Receiver(s: Pair, fromClient: bool): End {
    if fromClient then s.server else s.client
  }

  lemma EndOfRun(states: seq<Pair>, moves: seq<Move>, i: nat, atClient: bool)
    requires IsRun(states, moves) && i < |states|
    ensures EndInv(Sender(states[i], atClient))
  {
    RunInv(states, moves, i);
  }

  /** No step that can be taken in a run makes the runtime panic: no channel is closed twice,
      nothing is sent on a closed queue, and the wait group stays non-negative. */
  lemma NoPanic(states: seq<Pair>, moves: seq<Move>, i: nat, m: Move)
    requires IsRun(states, moves) && i < |states| && CanMove(states[i], m)
    ensures IsSafe(Sender(states[i], m.atClient), m.action)
  {
    EndOfRun(states, moves, i, m.atClient);
    StepIsSafe(Sender(states[i], m.atClient), m.action);
  }

  lemma EndOfMove(s: Pair, m: Move, atClient: bool)
    requires CanMove(s, m)
    ensures var e, f := Sender(s, atClient), Sender(MoveTo(s, m), atClient);
      if m.atClient == atClient then Enabled(e, m.action) && f == Step(e, m.action)
      else f == Deliver(e, Out(Sender(s, m.atClient), m.action))
  {
    hide Step, Out, Enabled, Deliver;
  }

  /** An endpoint has an error exactly when it is closed, and closing is final: the error then
      never changes and the pending count never rises. */
  lemma {:induction false} ClosingIsFinal(states: seq<Pair>, moves: seq<Move>, i: nat, j: nat, atClient: bool)
    requires IsRun(states, moves) && i <= j < |states|
    ensures var e, f := Sender(states[i], atClient).core, Sender(states[j], atClient).core;
      && (e.closed <==> e.err.Some?)
      && (e.closed ==> f.closed && f.err == e.err && f.pending <= e.pending)
  {
    hide Sender, CanMove, MoveTo, Step, Enabled, Out;
    EndOfRun(states, moves, i, atClient);
    if i < j {
      ClosingIsFinal(states, moves, i, j - 1, atClient);
      EndOfRun(states, moves, j - 1, atClient);
      EndOfMove(states[j - 1], moves[j - 1], atClient);
      var e := Sender(states[j - 1], atClient);
      if moves[j - 1].atClient == atClient && e.core.closed {
        StepKeepsClosed(e, moves[j - 1].action);
      }
    }
  }

  /** A close under way can always go on. */
  lemma CloseNeverStuck(states: seq<Pair>, moves: seq<Move>, i: nat, atClient: bool) returns (a: Action)
    requires IsRun(states, moves) && i < |states|
    requires Sender(states[i], atClient).core.closed && !Sender(states[i], atClient).progress.Finished?
    ensures CanMove(states[i], Move(atClient, a)) && !a.Lose? && !a.ParentCancels? && !a.LocalClose? && !a.Start?
  {
    EndOfRun(states, moves, i, atClient);
    a := ClosingEndMoves(Sender(states[i], atClient));
  }

  /** The steps one endpoint takes, not counting its caller's cancellations. */
  function OwnSteps(moves: seq<Move>, i: nat, j: nat, atClient: bool): nat
    requires i <= j <= |moves|
    decreases j
  {
    if i == j then 0
    else
      var m := moves[j - 1];
      OwnSteps(moves, i, j - 1, atClient) + (if m.atClient == atClient && !m.action.ParentCancels? then 1 else 0)
  }

  /** The messages the other endpoint hands to the bus. */
  function Mail(states: seq<Pair>, moves: seq<Move>, i: nat, j: nat, atClient: bool): nat
    requires i <= j <= |moves| < |states|
    decreases j
  {
    if i == j then 0
    else
      var s, m := states[j - 1], moves[j - 1];
      Mail(states, moves, i, j - 1, atClient)
      + if m.atClient != atClient && CanMove(s, m) then |Out(Sender(s, m.atClient), m.action)| else 0
  }

  lemma LeftAfterMove(s: Pair, m: Move, atClient: bool)
    requires CanMove(s, m) && Sender(s, atClient).core.closed
    ensures var e, f := Sender(s, atClient), Sender(MoveTo(s, m), atClient);
      if m.atClient != atClient then StepsLeft(f) == StepsLeft(e) + 2 * |Out(Sender(s, m.atClient), m.action)|
      else if m.action.ParentCancels? then StepsLeft(f) == StepsLeft(e)
      else StepsLeft(f) < StepsLeft(e)
  {
    hide Sender, CanMove, MoveTo, Out, SendsLeft;
    EndOfMove(s, m, atClient);
    if m.atClient == atClient && !m.action.ParentCancels? {
      StepLowers(Sender(s, atClient), m.action);
    }
  }

  /** A close completes: after it, the endpoint takes only a bounded number of steps, and two more
      for each message the other endpoint sends; and when it has no step left, the close is finished. */
  lemma {:induction false} CloseCompletes(states: seq<Pair>, moves: seq<Move>, i: nat, j: nat, atClient: bool)
    requires IsRun(states, moves) && i <= j < |states| && Sender(states[i], atClient).core.closed
    ensures var e, f := Sender(states[i], atClient), Sender(states[j], atClient);
      && OwnSteps(moves, i, j, atClient) + StepsLeft(f) <= StepsLeft(e) + 2 * Mail(states, moves, i, j, atClient)
      && ((forall a :: Enabled(f, a) ==> a.ParentCancels?) ==> f.progress.Finished?)
  {
    hide Sender, MoveTo, Enabled, StepsLeft, Out;
    ClosingIsFinal(states, moves, i, j, atClient);
    if i < j {
      CloseCompletes(states, moves, i, j - 1, atClient);
      ClosingIsFinal(states, moves, i, j - 1, atClient);
      LeftAfterMove(states[j - 1], moves[j - 1], atClient);
    }
    if !Sender(states[j], atClient).progress.Finished? {
      EndOfRun(states, moves, j, atClient);
      var a := ClosingEndMoves(Sender(states[j], atClient));
    }
  }

  /** No message is ever placed twice, and only messages that were sent are placed. */
  lemma NeverPlacedTwice(states: seq<Pair>, moves: seq<Move>, i: nat, fromClient: bool, id: Id)
    requires IsRun(states, moves) && i < |states|
    ensures Receiver(states[i], fromClient).placed[id] <= 1
    ensures id in Receiver(states[i], fromClient).placed ==> id in Sender(states[i], fromClient).published
  {
    RunInv(states, moves, i);
    assert Delivery(Sender(states[i], fromClient), Receiver(states[i], fromClient), id);
  }

  /** A Send that returns nil has had its message placed exactly once at the peer,
      provided only closes cancelled its stream's context. */
  lemma NilMeansPlaced(states: seq<Pair>, moves: seq<Move>, i: nat, fromClient: bool, id: Id)
    requires IsRun(states, moves) && i < |states|
    requires SendAt(Sender(states[i], fromClient), id, Ended(None)) && !Sender(states[i], fromClient).parentCancelled
    ensures Receiver(states[i], fromClient).placed[id] == 1
  {
    RunInv(states, moves, i);
    assert Delivery(Sender(states[i], fromClient), Receiver(states[i], fromClient), id);
  }

  /** Without an acknowledgement a Send ends with nil exactly when the caller's own
      context was cancelled and the stream has not been closed yet. */
  lemma NilWithoutAckExactly(states: seq<Pair>, moves: seq<Move>, i: nat, fromClient: bool, id: Id)
    requires IsRun(states, moves) && i < |states| && Enabled(Sender(states[i], fromClient), SeeDone(id))
    ensures var x := Sender(states[i], fromClient);
      EndsWithNil(Step(x, SeeDone(id)), id) <==> x.parentCancelled && !x.core.closed
  {
    RunInv(states, moves, i);
  }

  /** So a Send can return nil though its message is lost. */
  lemma NilWithoutDelivery() returns (states: seq<Pair>, moves: seq<Move>)
    ensures IsRun(states, moves)
    ensures EndsWithNil(states[|moves|].client, 0) && 0 !in states[|moves|].server.placed
  {
    hide CanMove, MoveTo, Out, Deliver;
    states, moves := StartRun();
    states, moves := ClientMoves(states, moves, Start(0));
    states, moves := ClientMoves(states, moves, Register(0));
    states, moves := ClientMoves(states, moves, PublishData(0));
    states, moves := ClientMoves(states, moves, ParentCancels);
    states, moves := ClientMoves(states, moves, SeeDone(0));
  }

  lemma StartRun() returns (states: seq<Pair>, moves: seq<Move>)
    ensures IsRun(states, moves) && states[|moves|] == Pair(InitEnd(), InitEnd())
  {
    states, moves := [Pair(InitEnd(), InitEnd())], [];
  }

  lemma ClientMoves(states: seq<Pair>, moves: seq<Move>, a: Action) returns (states': seq<Pair>, moves': seq<Move>)
    requires IsRun(states, moves) && Enabled(states[|moves|].client, a)
    ensures IsRun(states', moves')
    ensures states'[|moves'|].client == Step(states[|moves|].client, a)
    ensures states'[|moves'|].server.placed == states[|moves|].server.placed
  {
    hide Step, Out, Enabled;
    var m := Move(true, a);
    states', moves' := states + [MoveTo(states[|moves|], m)], moves + [m];
  }
}
