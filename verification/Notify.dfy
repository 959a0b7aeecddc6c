/**
  Receipt messages (backend/internal/notify/service.go): a row is inserted in
  one transaction, the message is sent outside any, and the row is marked in
  another. Workers run concurrently and may crash in between.
 */
module Notify {
  import opened Prelude
  import opened FiscalState

  type MessageId = string

  datatype Key = Key(invoice: nat, template: string)

  datatype Status = Waiting | Sent | Delivered | Failed

  datatype Row = Row(key: Key, status: Status, message: Option<MessageId>)

  /** How a send ends: reported as accepted, accepted but reported as an error (a timeout, a 5xx, an unreadable answer), or not accepted. */
  datatype Reply = Reported(id: MessageId) | Lost | NotSent

  /** What a worker knows after its send. */
  datatype Phase = Inserted | Accepted(id: MessageId) | SawError

  datatype Worker = Worker(row: nat, phase: Phase)

  /** A message the gateway accepted. */
  datatype Message = Message(row: nat, reported: bool)

  /** `sends` lists, in order, the messages the gateway accepted. */
  datatype World = World(rows: seq<Row>, workers: map<nat, Worker>, sends: seq<Message>)

  datatype Action =
    | Begin(w: nat, key: Key, state: State, problem: bool)   // problem: no invoice, no recipient, …
    | Send(w: nat, reply: Reply)
    | Record(w: nat)
    | Crash(w: nat)
    | Report(report: MessageId)                              // the gateway's delivery report

  const RECEIPT_PENDING := "receipt_pending"

  predicate StillPending(s: State) {
    s != Acked && s != FailedTerminal
  }

  predicate Blocks(r: Row, k: Key) {
    r.key == k && r.status != Failed
  }

  /** An earlier row for the key that has not failed. */
  predicate Exists(rows: seq<Row>, k: Key) {
    exists i :: 0 <= i < |rows| && Blocks(rows[i], k)
  }

  /** The first transaction: a new row, unless one exists, the template is out of date or something is missing. */
  predicate Inserts(rows: seq<Row>, k: Key, state: State, problem: bool) {
    !Exists(rows, k) && !(k.template == RECEIPT_PENDING && !StillPending(state)) && !problem
  }

  predicate Enabled(s: World, a: Action) {
    match a
    case Begin(w, _, _, _) => w !in s.workers
    case Send(w, _) => w in s.workers && s.workers[w].phase.Inserted?
    case Record(w) => w in s.workers && !s.workers[w].phase.Inserted?
    case Crash(w) => w in s.workers
    case Report(_) => true
  }

  function RowAfter(r: Row, p: Phase): Row {
    match p
    case Accepted(id) => r.(status := Sent, message := Some(id))
    case SawError => r.(status := Failed)
    case Inserted => r
  }

  function WithDelivered(rows: seq<Row>, id: MessageId): (out: seq<Row>) {
    seq(|rows|, i requires 0 <= i < |rows| => if rows[i].message == Some(id) then rows[i].(status := Delivered) else rows[i])
  }

  function Next(s: World, a: Action): World {
    match a
    case Begin(w, k, state, problem) =>
      if Inserts(s.rows, k, state, problem)
      then s.(rows := s.rows + [Row(k, Waiting, None)], workers := s.workers[w := Worker(|s.rows|, Inserted)])
      else s
    case Send(w, reply) =>
      if w !in s.workers then s
      else
        var row := s.workers[w].row;
        (match reply
         case Reported(id) => s.(workers := s.workers[w := Worker(row, Accepted(id))], sends := s.sends + [Message(row, true)])
         case Lost => s.(workers := s.workers[w := Worker(row, SawError)], sends := s.sends + [Message(row, false)])
         case NotSent => s.(workers := s.workers[w := Worker(row, SawError)]))
    case Record(w) =>
      if w in s.workers && s.workers[w].row < |s.rows|
      then s.(rows := s.rows[s.workers[w].row := RowAfter(s.rows[s.workers[w].row], s.workers[w].phase)], workers := s.workers - {w})
      else s
    case Crash(w) => s.(workers := s.workers - {w})
    case Report(id) => s.(rows := WithDelivered(s.rows, id))
  }

  const START := World([], map[], [])

  predicate Run(s: World, actions: seq<Action>)
    decreases |actions|
  {
    actions == [] || (Enabled(s, actions[0]) && Run(Next(s, actions[0]), actions[1..]))
  }

  function End(s: World, actions: seq<Action>): World
    decreases |actions|
  {
    if actions == [] then s else End(Next(s, actions[0]), actions[1..])
  }

  /* ---------------------------------------------------------------- invariant */

  ghost predicate OneRowPerKey(rows: seq<Row>) {
    forall i, k :: 0 <= i < |rows| && 0 <= k < |rows| && Blocks(rows[i], rows[k].key) && rows[k].status != Failed ==> i == k
  }

  /** Only a recorded message has an id, and it is never marked failed. */
  predicate RowOk(r: Row) {
    r.message.Some? <==> r.status == Sent || r.status == Delivered
  }

  /** The gateway accepted a message for row `r`, and said so. */
  ghost predicate SentFor(s: World, r: nat, reported: bool) {
    Message(r, reported) in s.sends
  }

  /** A worker owns a waiting row, for which it has sent what it knows. */
  ghost predicate WorkerOk(s: World, w: nat)
    requires w in s.workers
  {
    var r := s.workers[w].row;
    && r < |s.rows| && s.rows[r].status == Waiting
    && (s.workers[w].phase.Inserted? ==> !SentFor(s, r, true) && !SentFor(s, r, false))
    && (s.workers[w].phase.SawError? ==> !SentFor(s, r, true))
  }

  predicate MessageOk(s: World, m: Message) {
    m.row < |s.rows| && (m.reported ==> s.rows[m.row].status != Failed)
  }

  /** A message that was reported is the last one the gateway accepted for its key. */
  ghost predicate ReportedIsLast(s: World) {
    forall i, k :: 0 <= i < k < |s.sends| && s.sends[i].reported ==> KeyOf(s, i) != KeyOf(s, k)
  }

  function KeyOf(s: World, i: nat): Option<Key> {
    if i < |s.sends| && s.sends[i].row < |s.rows| then Some(s.rows[s.sends[i].row].key) else None
  }

  ghost predicate Inv(s: World) {
    && OneRowPerKey(s.rows)
    && (forall i :: 0 <= i < |s.rows| ==> RowOk(s.rows[i]))
    && (forall w :: w in s.workers ==> WorkerOk(s, w))
    && (forall v, w :: v in s.workers && w in s.workers && s.workers[v].row == s.workers[w].row ==> v == w)
    && (forall i :: 0 <= i < |s.sends| ==> MessageOk(s, s.sends[i]))
    && ReportedIsLast(s)
  }

  lemma BeginKeeps(s: World, w: nat, k: Key, state: State, problem: bool)
    requires Inv(s) && w !in s.workers
    ensures Inv(Next(s, Begin(w, k, state, problem)))
  {
    var n := Next(s, Begin(w, k, state, problem));
    forall v | v in n.workers ensures WorkerOk(n, v) {
      if v in s.workers {
        assert WorkerOk(s, v);
      } else {
        assert forall i :: 0 <= i < |s.sends| ==> MessageOk(s, s.sends[i]);
      }
    }
    forall i | 0 <= i < |n.sends| ensures MessageOk(n, n.sends[i]) { assert MessageOk(s, s.sends[i]); }
    SameKeys(s, n);
  }

  /** A worker that has not sent yet finds no reported message for its key: that would be its own row's. */
  lemma NoneReportedYet(s: World, w: nat, i: nat)
    requires Inv(s) && w in s.workers && s.workers[w].phase.Inserted? && i < |s.sends| && s.sends[i].reported
    ensures KeyOf(s, i) != Some(s.rows[s.workers[w].row].key)
  {
    var r, m := s.workers[w].row, s.sends[i];
    assert WorkerOk(s, w) && MessageOk(s, m);
    assert m in s.sends && m.row != r;
    assert Blocks(s.rows[r], s.rows[m.row].key) ==> r == m.row;
  }

  lemma SendKeeps(s: World, w: nat, reply: Reply)
    requires Inv(s) && Enabled(s, Send(w, reply))
    ensures Inv(Next(s, Send(w, reply)))
  {
    var n := Next(s, Send(w, reply));
    forall v | v in n.workers ensures WorkerOk(n, v) { SendKeepsWorker(s, w, reply, v); }
    assert WorkerOk(s, w);
    forall i | 0 <= i < |n.sends| ensures MessageOk(n, n.sends[i]) {
      assert i < |s.sends| ==> MessageOk(s, s.sends[i]);
    }
    SendKeepsLast(s, w, n);
  }

  lemma SendKeepsWorker(s: World, w: nat, reply: Reply, v: nat)
    requires Inv(s) && Enabled(s, Send(w, reply)) && v in s.workers
    ensures WorkerOk(Next(s, Send(w, reply)), v)
  {
    assert WorkerOk(s, v) && WorkerOk(s, w);
  }

  lemma SendKeepsLast(s: World, w: nat, n: World)
    requires Inv(s) && w in s.workers && s.workers[w].phase.Inserted? && n.rows == s.rows
    requires n.sends == s.sends || (exists b :: n.sends == s.sends + [Message(s.workers[w].row, b)])
    ensures ReportedIsLast(n)
  {
    assert WorkerOk(s, w);
    forall i, k | 0 <= i < k < |n.sends| && n.sends[i].reported ensures KeyOf(n, i) != KeyOf(n, k) {
      assert KeyOf(n, i) == KeyOf(s, i);
      if k < |s.sends| { assert KeyOf(n, k) == KeyOf(s, k); } else { NoneReportedYet(s, w, i); }
    }
  }

  /** Keys do not change, so what is known of reported messages stays. */
  lemma SameKeys(s: World, n: World)
    requires ReportedIsLast(s) && n.sends == s.sends && (forall i :: 0 <= i < |s.sends| ==> MessageOk(s, s.sends[i]))
    requires |s.rows| <= |n.rows| && forall i :: 0 <= i < |s.rows| ==> n.rows[i].key == s.rows[i].key
    ensures ReportedIsLast(n)
  {
    forall i, k | 0 <= i < k < |n.sends| && n.sends[i].reported ensures KeyOf(n, i) != KeyOf(n, k) {
      assert MessageOk(s, s.sends[i]) && MessageOk(s, s.sends[k]) && KeyOf(s, i) != KeyOf(s, k);
    }
  }

  lemma RecordKeeps(s: World, w: nat)
    requires Inv(s) && Enabled(s, Record(w))
    ensures Inv(Next(s, Record(w)))
  {
    var n := Next(s, Record(w));
    assert WorkerOk(s, w);
    forall v | v in n.workers ensures WorkerOk(n, v) { assert WorkerOk(s, v); }
    forall i | 0 <= i < |n.sends| ensures MessageOk(n, n.sends[i]) {
      assert MessageOk(s, s.sends[i]);
      assert s.sends[i] in s.sends;
    }
    SameKeys(s, n);
  }

  lemma ReportKeeps(s: World, id: MessageId)
    requires Inv(s)
    ensures Inv(Next(s, Report(id)))
  {
    var n := Next(s, Report(id));
    assert forall i :: 0 <= i < |s.rows| ==> RowOk(s.rows[i]) && n.rows[i].key == s.rows[i].key && (n.rows[i].status == Failed <==> s.rows[i].status == Failed);
    forall v | v in n.workers ensures WorkerOk(n, v) { assert WorkerOk(s, v) && RowOk(s.rows[s.workers[v].row]); }
    forall i | 0 <= i < |n.sends| ensures MessageOk(n, n.sends[i]) { assert MessageOk(s, s.sends[i]); }
    SameKeys(s, n);
  }

  lemma CrashKeeps(s: World, w: nat)
    requires Inv(s)
    ensures Inv(Next(s, Crash(w)))
  {
    var n := Next(s, Crash(w));
    forall v | v in n.workers ensures WorkerOk(n, v) { assert WorkerOk(s, v); }
    forall i | 0 <= i < |n.sends| ensures MessageOk(n, n.sends[i]) { assert MessageOk(s, s.sends[i]); }
    SameKeys(s, n);
  }

  lemma StepKeeps(s: World, a: Action)
    requires Inv(s) && Enabled(s, a)
    ensures Inv(Next(s, a))
  {
    match a
    case Begin(w, k, state, problem) => BeginKeeps(s, w, k, state, problem);
    case Send(w, reply) => SendKeeps(s, w, reply);
    case Record(w) => RecordKeeps(s, w);
    case Crash(w) => CrashKeeps(s, w);
    case Report(id) => ReportKeeps(s, id);
  }

  lemma {:induction false} RunKeeps(s: World, actions: seq<Action>)
    requires Inv(s) && Run(s, actions)
    ensures Inv(End(s, actions))
    decreases |actions|
  {
    if actions != [] {
      StepKeeps(s, actions[0]);
      RunKeeps(Next(s, actions[0]), actions[1..]);
    }
  }

  /* ---------------------------------------------------------------- theorems */

  /** In any run there is at most one row per invoice and template that has not failed. */
  lemma AtMostOneRow(actions: seq<Action>, i: nat, k: nat)
    requires Run(START, actions)
    requires var rows := End(START, actions).rows;
      && i < |rows| && k < |rows| && rows[i].key == rows[k].key
      && rows[i].status != Failed && rows[k].status != Failed
    ensures i == k
  {
    RunKeeps(START, actions);
    var rows := End(START, actions).rows;
    assert Blocks(rows[i], rows[k].key);
  }

  /** In any run at most one send per invoice and template reports success, and after it the gateway accepts no other. */
  lemma AtMostOneReported(actions: seq<Action>, i: nat, k: nat)
    requires Run(START, actions)
    requires var s := End(START, actions);
      i < |s.sends| && k < |s.sends| && s.sends[i].reported && KeyOf(s, i) == KeyOf(s, k)
    ensures k <= i && (End(START, actions).sends[k].reported ==> i == k)
  {
    RunKeeps(START, actions);
  }

  /** How many messages for `key` the gateway accepted among the first `n`, and how many of those it lost the answer of. */
  ghost function AcceptedFor(s: World, n: nat, key: Key): nat
    requires n <= |s.sends|
  {
    if n == 0 then 0 else AcceptedFor(s, n - 1, key) + (if KeyOf(s, n - 1) == Some(key) then 1 else 0)
  }

  ghost function LostFor(s: World, n: nat, key: Key): nat
    requires n <= |s.sends|
  {
    if n == 0 then 0 else LostFor(s, n - 1, key) + (if KeyOf(s, n - 1) == Some(key) && !s.sends[n - 1].reported then 1 else 0)
  }

  lemma {:induction false} OnlyLostBefore(s: World, n: nat, key: Key)
    requires n <= |s.sends| && forall i :: 0 <= i < n && KeyOf(s, i) == Some(key) ==> !s.sends[i].reported
    ensures AcceptedFor(s, n, key) == LostFor(s, n, key)
  {
    if n > 0 { OnlyLostBefore(s, n - 1, key); }
  }

  lemma {:induction false} AcceptedUpTo(s: World, n: nat, key: Key)
    requires n <= |s.sends| && ReportedIsLast(s)
    ensures LostFor(s, n, key) <= AcceptedFor(s, n, key) <= LostFor(s, n, key) + 1
  {
    if n > 0 {
      AcceptedUpTo(s, n - 1, key);
      if KeyOf(s, n - 1) == Some(key) && s.sends[n - 1].reported { OnlyLostBefore(s, n - 1, key); }
    }
  }

  /** In any run the gateway accepts at most one message per key more than it lost answers for. */
  lemma AcceptedMessages(actions: seq<Action>, key: Key)
    requires Run(START, actions)
    ensures var s := End(START, actions); var n := |s.sends|;
      AcceptedFor(s, n, key) <= LostFor(s, n, key) + 1
  {
    RunKeeps(START, actions);
    AcceptedUpTo(End(START, actions), |End(START, actions).sends|, key);
  }

  /** A lost answer was followed by another accepted message for the same key. */
  ghost predicate SentAgain(s: World, key: Key) {
    exists i, k :: 0 <= i < k < |s.sends| && !s.sends[i].reported && KeyOf(s, i) == Some(key) && KeyOf(s, k) == Some(key)
  }

  lemma {:induction false} NoneAccepted(s: World, n: nat, key: Key)
    requires n <= |s.sends|
    ensures AcceptedFor(s, n, key) == 0 <==> forall i :: 0 <= i < n ==> KeyOf(s, i) != Some(key)
  {
    if n > 0 { NoneAccepted(s, n - 1, key); }
  }

  lemma {:induction false} TwoAccepted(s: World, n: nat, key: Key)
    requires n <= |s.sends|
    ensures AcceptedFor(s, n, key) >= 2 <==> exists i, k :: 0 <= i < k < n && KeyOf(s, i) == Some(key) && KeyOf(s, k) == Some(key)
  {
    if n > 0 {
      TwoAccepted(s, n - 1, key);
      NoneAccepted(s, n - 1, key);
      if AcceptedFor(s, n, key) >= 2 && AcceptedFor(s, n - 1, key) < 2 {
        var i :| 0 <= i < n - 1 && KeyOf(s, i) == Some(key);
        assert KeyOf(s, n - 1) == Some(key);
      }
    }
  }

  /** The exact condition: a buyer gets at most one message per invoice and template if and only if no send whose answer was lost is followed by another accepted one. */
  lemma AtMostOneMessage(actions: seq<Action>, key: Key)
    requires Run(START, actions)
    ensures var s := End(START, actions); AcceptedFor(s, |s.sends|, key) <= 1 <==> !SentAgain(s, key)
  {
    RunKeeps(START, actions);
    var s := End(START, actions);
    TwoAccepted(s, |s.sends|, key);
    if AcceptedFor(s, |s.sends|, key) >= 2 {
      var i, k :| 0 <= i < k < |s.sends| && KeyOf(s, i) == Some(key) && KeyOf(s, k) == Some(key);
      assert !s.sends[i].reported;
    }
  }

  const RECEIPT := Key(0, "receipt_acked")

  /** A first send whose answer is lost, and a second one after the row was marked failed. */
  const TWICE: seq<Action> := [
    Begin(0, RECEIPT, Acked, false), Send(0, Lost), Record(0),
    Begin(0, RECEIPT, Acked, false), Send(0, Reported("m")), Record(0)]

  /** So a lost answer can send the same receipt twice, with a single successful send on record. */
  lemma ReceiptSentTwice()
    ensures Run(START, TWICE)
    ensures var s := End(START, TWICE);
      s.sends == [Message(0, false), Message(1, true)] && KeyOf(s, 0) == Some(RECEIPT) && KeyOf(s, 1) == Some(RECEIPT) && SentAgain(s, RECEIPT)
  {
    var s1 := World([Row(RECEIPT, Waiting, None)], map[0 := Worker(0, Inserted)], []);
    assert !Exists([], RECEIPT);
    assert Next(START, TWICE[0]) == s1;
    var s2 := World(s1.rows, map[0 := Worker(0, SawError)], [Message(0, false)]);
    assert Next(s1, TWICE[1]) == s2;
    var s3 := World([Row(RECEIPT, Failed, None)], map[], s2.sends);
    assert Next(s2, TWICE[2]) == s3;
    var s4 := World([Row(RECEIPT, Failed, None), Row(RECEIPT, Waiting, None)], map[0 := Worker(1, Inserted)], s2.sends);
    assert !Exists(s3.rows, RECEIPT);
    assert Next(s3, TWICE[3]) == s4;
    var s5 := World(s4.rows, map[0 := Worker(1, Accepted("m"))], [Message(0, false), Message(1, true)]);
    assert Next(s4, TWICE[4]) == s5;
    var s6 := World([Row(RECEIPT, Failed, None), Row(RECEIPT, Sent, Some("m"))], map[], s5.sends);
    assert Next(s5, TWICE[5]) == s6;
    RunFrom(s5, TWICE, 5, s6);
    RunFrom(s4, TWICE, 4, s6);
    RunFrom(s3, TWICE, 3, s6);
    RunFrom(s2, TWICE, 2, s6);
    RunFrom(s1, TWICE, 1, s6);
    RunFrom(START, TWICE, 0, s6);
    assert TWICE[0..] == TWICE;
    assert KeyOf(s6, 0) == Some(RECEIPT) && KeyOf(s6, 1) == Some(RECEIPT);
  }

  /** One step in front of the rest of a run. */
  lemma RunFrom(s: World, actions: seq<Action>, i: nat, e: World)
    requires i < |actions| && Enabled(s, actions[i])
    requires Run(Next(s, actions[i]), actions[i + 1..]) && End(Next(s, actions[i]), actions[i + 1..]) == e
    ensures Run(s, actions[i..]) && End(s, actions[i..]) == e
  {
    assert actions[i..][0] == actions[i] && actions[i..][1..] == actions[i + 1..];
  }

  /** A delivery report marks the row of that message delivered, and no other. */
  lemma ReportMarksDelivered(s: World, id: MessageId, i: nat)
    requires i < |s.rows|
    ensures var n := Next(s, Report(id));
      && |n.rows| == |s.rows| && n.sends == s.sends && n.workers == s.workers
      && n.rows[i] == if s.rows[i].message == Some(id) then Row(s.rows[i].key, Delivered, Some(id)) else s.rows[i]
  {
  }

  /** A waiting row whose worker is gone. */
  predicate Orphaned(s: World, r: nat) {
    r < |s.rows| && s.rows[r].status == Waiting && forall w :: w in s.workers ==> s.workers[w].row != r
  }

  /** The price: once a worker crashes after its insert, its row waits for ever and nothing more is sent for that key. */
  lemma {:induction false} OrphanBlocksForEver(s: World, actions: seq<Action>, r: nat)
    requires Inv(s) && Run(s, actions) && Orphaned(s, r)
    ensures Orphaned(End(s, actions), r)
    ensures forall i :: |s.sends| <= i < |End(s, actions).sends| ==> KeyOf(End(s, actions), i) != Some(s.rows[r].key)
    decreases |actions|
  {
    if actions == [] { return; }
    var n := Next(s, actions[0]);
    StepKeeps(s, actions[0]);
    OrphanStays(s, actions[0], r);
    OrphanBlocksForEver(n, actions[1..], r);
    SendsGrow(n, actions[1..]);
    var e := End(s, actions);
    forall i | |s.sends| <= i < |e.sends| ensures KeyOf(e, i) != Some(s.rows[r].key) {
      if i < |n.sends| {
        assert e.sends[i] == n.sends[i] && MessageOk(n, n.sends[i]);
        assert KeyOf(n, i) != Some(s.rows[r].key);
      }
    }
  }

  lemma OrphanStays(s: World, a: Action, r: nat)
    requires Inv(s) && Enabled(s, a) && Orphaned(s, r)
    ensures Orphaned(Next(s, a), r) && Next(s, a).rows[r].key == s.rows[r].key
    ensures |s.sends| <= |Next(s, a).sends|
    ensures forall i :: |s.sends| <= i < |Next(s, a).sends| ==> KeyOf(Next(s, a), i) != Some(s.rows[r].key)
  {
    assert RowOk(s.rows[r]);
    if a.Send? {
      assert WorkerOk(s, a.w);
      assert Blocks(s.rows[r], s.rows[r].key);
    }
  }

  /** Rows keep their key, and the list of sends only grows. */
  lemma {:induction false} SendsGrow(s: World, actions: seq<Action>)
    ensures var e := End(s, actions);
      && |s.sends| <= |e.sends| && e.sends[..|s.sends|] == s.sends
      && |s.rows| <= |e.rows| && forall i :: 0 <= i < |s.rows| ==> e.rows[i].key == s.rows[i].key
    decreases |actions|
  {
    if actions != [] { SendsGrow(Next(s, actions[0]), actions[1..]); }
  }

  /* ------------------------------------------------------------- as it runs */

  datatype Outcome = AlreadyThere | Skipped | Problem | Done(id: MessageId) | SendFailed

  /** What SendReceipt leaves behind for a key it inserts. */
  function RowFor(k: Key, reply: Reply): Row {
    match reply
    case Reported(id) => Row(k, Sent, Some(id))
    case _ => Row(k, Failed, None)
  }

  function MessagesFor(row: nat, reply: Reply): seq<Message> {
    match reply
    case Reported(_) => [Message(row, true)]
    case Lost => [Message(row, false)]
    case NotSent => []
  }

  /** The three steps of an undisturbed worker. */
  function SentReceipt(s: World, k: Key, state: State, problem: bool, reply: Reply): World {
    Next(Next(Next(s, Begin(0, k, state, problem)), Send(0, reply)), Record(0))
  }

  lemma ThreeSteps(s: World, k: Key, state: State, problem: bool, reply: Reply)
    requires Inv(s) && s.workers == map[] && Inserts(s.rows, k, state, problem)
    ensures Inv(SentReceipt(s, k, state, problem, reply))
    ensures SentReceipt(s, k, state, problem, reply) == World(s.rows + [RowFor(k, reply)], map[], s.sends + MessagesFor(|s.rows|, reply))
  {
    var s1 := Next(s, Begin(0, k, state, problem));
    var s2 := Next(s1, Send(0, reply));
    StepKeeps(s, Begin(0, k, state, problem));
    StepKeeps(s1, Send(0, reply));
    StepKeeps(s2, Record(0));
  }

  class Notifier {
    var rows: seq<Row>
    ghost var sends: seq<Message>

    ghost function Value(): World
      reads this
    {
      World(rows, map[], sends)
    }

    constructor ()
      ensures Value() == START
    {
      rows, sends := [], [];
    }

    /** SendReceipt by one worker that does not crash; `gateway` is how the send ends. */
    method SendReceipt(k: Key, state: State, problem: bool, gateway: Reply) returns (out: Outcome)
      requires Inv(Value())
      modifies this
      ensures Inv(Value())
      ensures out == AlreadyThere <==> Exists(old(rows), k)
      ensures out == Skipped <==> !Exists(old(rows), k) && k.template == "receipt_pending" && (state == Acked || state == FailedTerminal)
      ensures out.Done? || out.SendFailed? <==> Inserts(old(rows), k, state, problem)
      ensures out.Done? ==> gateway == Reported(out.id)
      ensures out.SendFailed? ==> !gateway.Reported?
      ensures Value() == if Inserts(old(rows), k, state, problem) then SentReceipt(old(Value()), k, state, problem, gateway) else old(Value())
    {
      var there := FindPrior(k);
      if there { return AlreadyThere; }
      if k.template == RECEIPT_PENDING && !StillPending(state) { return Skipped; }
      if problem { return Problem; }
      ThreeSteps(Value(), k, state, problem, gateway);
      SendNew(k, gateway);
      out := if gateway.Reported? then Done(gateway.id) else SendFailed;
    }

    /** Insert, send, mark. */
    method SendNew(k: Key, gateway: Reply)
      modifies this
      ensures rows == old(rows) + [RowFor(k, gateway)] && sends == old(sends) + MessagesFor(|old(rows)|, gateway)
    {
      var n := |rows|;
      rows := rows + [Row(k, Waiting, None)];
      sends := sends + MessagesFor(n, gateway);
      if gateway.Reported? {
        rows := rows[n := rows[n].(status := Sent, message := Some(gateway.id))];
      } else {
        rows := rows[n := rows[n].(status := Failed)];
      }
    }

    /** The loop over the earlier notifications. */
    method FindPrior(k: Key) returns (there: bool)
      ensures there <==> Exists(rows, k)
    {
      for i := 0 to |rows|
        invariant forall j :: 0 <= j < i ==> !Blocks(rows[j], k)
      {
        if rows[i].key.template == k.template && rows[i].key.invoice == k.invoice && rows[i].status != Failed {
          assert Blocks(rows[i], k);
          return true;
        }
      }
      return false;
    }
  }
}
