/**
 Idempotent ingestion: src/accounting/ingest.js over the unique keys of db/migrations/001-init.sql. An event is
 registered in its own commit before the transaction that applies it; between the two anything may happen.
 Miners, workers and sessions are upserts and left out; what remains of an accepted share is its row.
 */
module Ingest {
  import opened Wrappers
  import opened Sums
  import opened Sorting

  datatype Key = Key(edge: string, boot: string, seqNo: nat)

  /** UNIQUE (edge_id, boot_id, session_id, job_id, nonce): one submission of one solution. */
  datatype Submission = Submission(edge: string, boot: string, session: string, job: string, nonce: string)

  datatype Event = Event(id: string, key: Key, submission: Submission, valid: bool, acceptedAt: int, miner: string, work: nat)

  datatype State = State(
    registered: seq<Event>,   // rows of ingested_events
    open: seq<Event>,         // registered, transaction not yet finished
    shares: seq<Event>)       // rows of share_events

  function Start(): State {
    State([], [], [])
  }

  predicate HasKey(rows: seq<Event>, k: Key) {
    exists r | r in rows :: r.key == k
  }

  predicate HasId(rows: seq<Event>, id: string) {
    exists r | r in rows :: r.id == id
  }

  predicate HasSubmission(rows: seq<Event>, s: Submission) {
    exists r | r in rows :: r.submission == s
  }

  /** recordIngested, for a valid event: a known sequence key is a duplicate, a known id under another key throws. */
  function Register(s: State, e: Event): State {
    if !e.valid || HasKey(s.registered, e.key) || HasId(s.registered, e.id) then s
    else s.(registered := s.registered + [e], open := s.open + [e])
  }

  /** The share insert: a known sequence key does nothing, any other clash throws and rolls back. */
  function Insert(rows: seq<Event>, e: Event): seq<Event> {
    if HasKey(rows, e.key) || HasId(rows, e.id) || HasSubmission(rows, e.submission) then rows else rows + [e]
  }

  datatype Step =
    | Receive(event: Event)
    | Commit(which: nat)
    | Fail(which: nat)        // the transaction fails, or the process dies before it

  predicate Enabled(s: State, step: Step) {
    match step
    case Receive(_) => true
    case Commit(i) => i < |s.open|
    case Fail(i) => i < |s.open|
  }

  function Next(s: State, step: Step): State
    requires Enabled(s, step)
  {
    match step
    case Receive(e) => Register(s, e)
    case Commit(i) => s.(shares := Insert(s.shares, s.open[i]), open := s.open[..i] + s.open[i + 1..])
    case Fail(i) => s.(open := s.open[..i] + s.open[i + 1..])
  }

  ghost predicate Run(states: seq<State>, steps: seq<Step>) {
    && |states| == |steps| + 1 && states[0] == Start()
    && forall i | 0 <= i < |steps| :: Enabled(states[i], steps[i]) && states[i + 1] == Next(states[i], steps[i])
  }

  // ---------- the object ----------

  class Database {
    var registered: seq<Event>
    var shares: seq<Event>

    constructor ()
      ensures registered == [] && shares == []
    {
      registered, shares := [], [];
    }

    /** processEvent when nothing interrupts it. */
    method ProcessEvent(e: Event) returns (applied: bool)
      modifies this
      ensures State(registered, [], shares) == Process(State(old(registered), [], old(shares)), e)
      ensures applied <==> |registered| > |old(registered)|
    {
      if !e.valid {
        return false;
      }
      if HasKey(registered, e.key) || HasId(registered, e.id) {
        return false;
      }
      registered := registered + [e];
      if !HasKey(shares, e.key) && !HasId(shares, e.id) && !HasSubmission(shares, e.submission) {
        shares := shares + [e];
      }
      applied := true;
    }
  }

  function Process(s: State, e: Event): State {
    var s' := Register(s, e);
    if s' == s then s else s'.(open := s.open, shares := Insert(s.shares, e))
  }

  // ---------- at most once ----------

  /** Nobody else works on, or has applied, the event of an open transaction. */
  ghost predicate Inv(s: State) {
    && KeysDiffer(s.open) && KeysDiffer(s.shares)
    && (forall e | e in s.open :: HasKey(s.registered, e.key) && !HasKey(s.shares, e.key))
    && (forall e | e in s.shares :: HasKey(s.registered, e.key))
  }

  ghost predicate KeysDiffer(rows: seq<Event>) {
    forall i, j | 0 <= i < j < |rows| :: rows[i].key != rows[j].key
  }

  lemma HasKeyMore(rows: seq<Event>, e: Event, k: Key)
    ensures HasKey(rows + [e], k) <==> HasKey(rows, k) || e.key == k
  {
    if HasKey(rows, k) {
      var r :| r in rows && r.key == k;
      assert r in rows + [e];
    }
    if e.key == k {
      assert e in rows + [e];
    }
  }

  lemma RegisterKeepsInv(s: State, e: Event)
    requires Inv(s)
    ensures Inv(Register(s, e))
  {
    if Register(s, e) != s {
      forall r | r in s.open ensures r.key != e.key {
        assert HasKey(s.registered, r.key);
      }
      forall r | r in s.shares ensures r.key != e.key {
        assert HasKey(s.registered, r.key);
      }
      forall r | r in s.open + [e] ensures HasKey(s.registered + [e], r.key) {
        HasKeyMore(s.registered, e, r.key);
      }
      forall r | r in s.shares ensures HasKey(s.registered + [e], r.key) {
        HasKeyMore(s.registered, e, r.key);
      }
    }
  }

  lemma Removed(open: seq<Event>, i: nat)
    requires i < |open| && KeysDiffer(open)
    ensures KeysDiffer(open[..i] + open[i + 1..])
    ensures forall r | r in open[..i] + open[i + 1..] :: r in open && r.key != open[i].key
  {
  }

  lemma CommitKeepsInv(s: State, i: nat)
    requires Inv(s) && i < |s.open|
    ensures Inv(Next(s, Commit(i))) && Inv(Next(s, Fail(i)))
  {
    var e := s.open[i];
    Removed(s.open, i);
    assert e in s.open;
    if Insert(s.shares, e) != s.shares {
      forall r | r in s.shares ensures r.key != e.key {
      }
      forall r | r in s.open[..i] + s.open[i + 1..] ensures !HasKey(s.shares + [e], r.key) {
        HasKeyMore(s.shares, e, r.key);
      }
    }
  }

  /** In every run no sequence key has two rows, two open transactions, or both. */
  lemma {:induction false} AtMostOnce(states: seq<State>, steps: seq<Step>, i: nat)
    requires Run(states, steps) && i < |states|
    ensures Inv(states[i])
  {
    hide Inv;
    if i == 0 {
      StartInv();
    } else {
      AtMostOnce(states, steps, i - 1);
      match steps[i - 1]
      case Receive(e) => RegisterKeepsInv(states[i - 1], e);
      case Commit(k) => CommitKeepsInv(states[i - 1], k);
      case Fail(k) => CommitKeepsInv(states[i - 1], k);
    }
  }

  lemma StartInv()
    ensures Inv(Start())
  {
  }

  // ---------- lost events ----------

  /** Registered, applied nowhere and worked on by nobody. */
  ghost predicate Lost(s: State, k: Key) {
    HasKey(s.registered, k) && !HasKey(s.shares, k) && !HasKey(s.open, k)
  }

  lemma LostStays(s: State, step: Step, k: Key)
    requires Enabled(s, step) && Lost(s, k)
    ensures Lost(Next(s, step), k)
  {
    match step
    case Receive(e) =>
      HasKeyMore(s.registered, e, k);
      HasKeyMore(s.open, e, k);
    case Commit(i) =>
      assert s.open[i] in s.open;
      HasKeyMore(s.shares, s.open[i], k);
    case Fail(i) =>
  }

  /** An event whose only transaction failed is never applied again, however often it is redelivered. */
  lemma {:induction false} LostForGood(states: seq<State>, steps: seq<Step>, i: nat, j: nat, k: Key)
    requires Run(states, steps) && i <= j < |states| && Lost(states[i], k)
    ensures Lost(states[j], k)
  {
    hide Lost, Enabled, Next;
    if i < j {
      LostForGood(states, steps, i, j - 1, k);
      LostStays(states[j - 1], steps[j - 1], k);
    }
  }

  /** A failed transaction loses its event unless its key has a row already. */
  lemma FailLoses(s: State, i: nat)
    requires Inv(s) && i < |s.open|
    ensures Lost(Next(s, Fail(i)), s.open[i].key)
  {
    Removed(s.open, i);
    assert s.open[i] in s.open;
  }

  /** The step ends the transaction of the key without a row: it fails, or the insert clashes on the id or the submission. */
  predicate Loses(s: State, step: Step, k: Key) {
    match step
    case Receive(_) => false
    case Commit(i) => i < |s.open| && s.open[i].key == k && (HasId(s.shares, s.open[i].id) || HasSubmission(s.shares, s.open[i].submission))
    case Fail(i) => i < |s.open| && s.open[i].key == k
  }

  ghost predicate LostBefore(states: seq<State>, steps: seq<Step>, i: nat, k: Key)
    requires i <= |steps| < |states|
  {
    exists j | 0 <= j < i :: Loses(states[j], steps[j], k)
  }

  lemma LosesNow(s: State, step: Step, k: Key)
    requires Inv(s) && Enabled(s, step) && Loses(s, step, k)
    ensures Lost(Next(s, step), k)
  {
    Removed(s.open, step.which);
    assert s.open[step.which] in s.open;
  }

  lemma LostNowIff(s: State, step: Step, k: Key)
    requires Inv(s) && Enabled(s, step)
    ensures Lost(Next(s, step), k) <==> Lost(s, k) || Loses(s, step, k)
  {
    if Lost(s, k) {
      LostStays(s, step, k);
    } else if Loses(s, step, k) {
      LosesNow(s, step, k);
    } else {
      match step
      case Receive(e) =>
        HasKeyMore(s.registered, e, k);
        HasKeyMore(s.open, e, k);
      case Commit(i) =>
        EndsOne(s, i, k);
        HasKeyMore(s.shares, s.open[i], k);
      case Fail(i) =>
        EndsOne(s, i, k);
    }
  }

  lemma EndsOne(s: State, i: nat, k: Key)
    requires Inv(s) && i < |s.open|
    ensures HasKey(s.open[..i] + s.open[i + 1..], k) <==> HasKey(s.open, k) && s.open[i].key != k
    ensures HasKey(s.registered, s.open[i].key) && !HasKey(s.shares, s.open[i].key)
  {
    assert s.open[i] in s.open && KeysDiffer(s.open);
    hide *;
    OneRemoved(s.open, i, k);
  }

  lemma OneRemoved(open: seq<Event>, i: nat, k: Key)
    requires i < |open| && KeysDiffer(open)
    ensures HasKey(open[..i] + open[i + 1..], k) <==> HasKey(open, k) && open[i].key != k
  {
    Removed(open, i);
    hide KeysDiffer;
    if HasKey(open, k) && open[i].key != k {
      var r :| r in open && r.key == k;
      var j :| 0 <= j < |open| && open[j] == r;
      assert (open[..i] + open[i + 1..])[if j < i then j else j - 1] == r;
    }
  }

  /**
   In every run, a registered event nobody works on any more has no row exactly when at some step its transaction
   failed or its insert clashed with another row's id or submission.
   */
  lemma {:induction false} LostIff(states: seq<State>, steps: seq<Step>, i: nat, k: Key)
    requires Run(states, steps) && i < |states|
    ensures Lost(states[i], k) <==> LostBefore(states, steps, i, k)
  {
    hide Lost, Loses, Enabled, Next, Inv;
    if i == 0 {
      NothingLost(k);
    } else {
      LostIff(states, steps, i - 1, k);
      AtMostOnce(states, steps, i - 1);
      LostNowIff(states[i - 1], steps[i - 1], k);
      if Loses(states[i - 1], steps[i - 1], k) {
        assert LostBefore(states, steps, i, k);
      }
    }
  }

  lemma NothingLost(k: Key)
    ensures !Lost(Start(), k)
  {
  }

  // ---------- the share history ----------

  /** ORDER BY accepted_at, edge_id, boot_id, edge_seq. */
  function Before(): (Event, Event) -> bool {
    (a: Event, b: Event) =>
      a.acceptedAt < b.acceptedAt || (a.acceptedAt == b.acceptedAt && KeyBefore(a.key, b.key))
  }

  predicate KeyBefore(a: Key, b: Key) {
    Less(a.edge, b.edge) || (a.edge == b.edge && (Less(a.boot, b.boot) || (a.boot == b.boot && a.seqNo < b.seqNo)))
  }

  function History(shares: seq<Event>): seq<Event> {
    Sort(shares, Before())
  }

  lemma KeyOrder()
    ensures forall a :: !KeyBefore(a, a)
    ensures forall a, b, c :: KeyBefore(a, b) && KeyBefore(b, c) ==> KeyBefore(a, c)
    ensures forall a, b :: a == b || KeyBefore(a, b) || KeyBefore(b, a)
  {
    LessIsTotal();
    hide Less;
  }

  lemma HistoryOrder(rows: seq<Event>)
    requires KeysDiffer(rows)
    ensures TotalOn(rows, Before()) && Distinct(rows)
  {
    KeyOrder();
    hide KeyBefore;
    forall a, b | a in rows && b in rows ensures a == b || Before()(a, b) || Before()(b, a) {
      var i :| 0 <= i < |rows| && rows[i] == a;
      var j :| 0 <= j < |rows| && rows[j] == b;
      assert i < j || i == j || j < i;
    }
  }

  // ---------- complete runs ----------

  /** Events of one set that do not get in each other's way. */
  ghost predicate Compatible(events: iset<Event>) {
    && (forall e | e in events :: e.valid)
    && (forall a, b | a in events && b in events && (a.key == b.key || a.id == b.id || a.submission == b.submission) :: a == b)
  }

  ghost predicate Delivers(steps: seq<Step>, n: nat, e: Event)
    requires n <= |steps|
  {
    exists k | 0 <= k < n :: steps[k] == Receive(e)
  }

  /** Only events of the set are delivered, and no transaction fails. */
  ghost predicate Smooth(steps: seq<Step>, events: iset<Event>) {
    forall k | 0 <= k < |steps| :: !steps[k].Fail? && (steps[k].Receive? ==> steps[k].event in events)
  }

  lemma ReceiveComplete(s: State, e: Event, events: iset<Event>)
    requires Compatible(events) && e in events && forall r | r in s.registered :: r in events
    ensures forall r :: r in Register(s, e).registered <==> r in s.registered || r == e
    ensures Register(s, e) == s || (Register(s, e).registered == s.registered + [e] && Register(s, e).open == s.open + [e])
    ensures Register(s, e).shares == s.shares
  {
    if HasKey(s.registered, e.key) || HasId(s.registered, e.id) {
      assert e in s.registered;
    }
  }

  lemma CommitComplete(s: State, i: nat, events: iset<Event>)
    requires Inv(s) && Compatible(events) && i < |s.open|
    requires forall r | r in s.registered :: r in events
    requires forall e :: e in s.registered <==> e in s.open || e in s.shares
    ensures var s' := Next(s, Commit(i));
      s'.registered == s.registered && forall e :: e in s.registered <==> e in s'.open || e in s'.shares
  {
    var x := s.open[i];
    assert x in s.open;
    forall r | r in s.shares ensures r.id != x.id && r.submission != x.submission {
      assert HasKey(s.shares, r.key);
      assert r in events && x in events;
    }
    assert Insert(s.shares, x) == s.shares + [x];
    assert s.open == s.open[..i] + [x] + s.open[i + 1..];
  }

  /** What a state holds of a set of events delivered so far. */
  ghost predicate Holds(s: State, delivered: iset<Event>, events: iset<Event>) {
    && (forall e | e in s.registered :: e in events)
    && (forall e :: e in s.registered <==> e in s.open || e in s.shares)
    && (forall e :: e in s.registered <==> e in delivered)
  }

  lemma StepHolds(s: State, step: Step, delivered: iset<Event>, events: iset<Event>)
    requires Inv(s) && Compatible(events) && Holds(s, delivered, events) && Enabled(s, step)
    requires !step.Fail? && (step.Receive? ==> step.event in events)
    ensures Holds(Next(s, step), if step.Receive? then delivered + iset{step.event} else delivered, events)
  {
    hide Inv, Compatible, Register, Insert;
    if step.Receive? {
      ReceiveComplete(s, step.event, events);
    } else {
      CommitComplete(s, step.which, events);
    }
  }

  ghost function DeliveredBy(steps: seq<Step>, n: nat): iset<Event>
    requires n <= |steps|
  {
    iset e | Delivers(steps, n, e)
  }

  lemma DeliveredMore(steps: seq<Step>, n: nat)
    requires n < |steps|
    ensures DeliveredBy(steps, n + 1) ==
      if steps[n].Receive? then DeliveredBy(steps, n) + iset{steps[n].event} else DeliveredBy(steps, n)
  {
  }

  lemma {:induction false} SmoothIsComplete(states: seq<State>, steps: seq<Step>, n: nat, events: iset<Event>)
    requires Run(states, steps) && n < |states| && Compatible(events) && Smooth(steps, events)
    ensures Holds(states[n], DeliveredBy(steps, n), events)
  {
    if n > 0 {
      SmoothIsComplete(states, steps, n - 1, events);
      AtMostOnce(states, steps, n - 1);
      hide DeliveredBy, Holds, Inv, Compatible, Next, Enabled, Start;
      DeliveredMore(steps, n - 1);
      StepHolds(states[n - 1], steps[n - 1], DeliveredBy(steps, n - 1), events);
    }
  }

  ghost predicate SameDeliveries(a: seq<Step>, b: seq<Step>) {
    forall e :: Delivers(a, |a|, e) <==> Delivers(b, |b|, e)
  }

  /**
   Without failed transactions the share history is the same for every order, repetition and interleaving in which
   one set of compatible events is delivered and finished.
   */
  lemma HistoryForgetsDelivery(p: seq<State>, a: seq<Step>, q: seq<State>, b: seq<Step>, events: iset<Event>)
    requires Run(p, a) && Run(q, b) && Compatible(events) && Smooth(a, events) && Smooth(b, events) && SameDeliveries(a, b)
    requires p[|a|].open == [] && q[|b|].open == []
    ensures History(p[|a|].shares) == History(q[|b|].shares)
  {
    SmoothIsComplete(p, a, |a|, events);
    SmoothIsComplete(q, b, |b|, events);
    AtMostOnce(p, a, |a|);
    AtMostOnce(q, b, |b|);
    var s, t := p[|a|].shares, q[|b|].shares;
    assert forall e :: e in s <==> e in t;
    HistoryOrder(s);
    HistoryOrder(t);
    hide Delivers, Run, Inv;
    SortForgetsOrder(s, t, Before());
  }

  /** Two events that report one submission under different sequence keys: whichever is applied first wins. */
  lemma DoubleSubmitDependsOnOrder(a: Event, b: Event)
    requires a.valid && b.valid && a.key != b.key && a.id != b.id && a.submission == b.submission
    ensures Process(Process(Start(), a), b).shares == [a] && Process(Process(Start(), b), a).shares == [b]
  {
    AppliesFirst(a, b);
    AppliesFirst(b, a);
  }

  lemma AppliesFirst(a: Event, b: Event)
    requires a.valid && b.valid && a.key != b.key && a.id != b.id && a.submission == b.submission
    ensures Process(Process(Start(), a), b).shares == [a]
  {
    var s := Process(Start(), a);
    assert s == State([a], [], [a]);
    assert a in s.shares;
  }

  // ---------- the winning share ----------

  /** What the allocator reads: all shares accepted no later than the winning one. */
  function UpTo(shares: seq<Event>, winner: Event): seq<Event> {
    if shares == [] then []
    else
      var e := shares[|shares| - 1];
      UpTo(shares[..|shares| - 1], winner) + if e.acceptedAt <= winner.acceptedAt then [e] else []
  }

  lemma {:induction false} UpToMembers(shares: seq<Event>, winner: Event)
    requires KeysDiffer(shares)
    ensures forall e :: e in UpTo(shares, winner) <==> e in shares && e.acceptedAt <= winner.acceptedAt
    ensures KeysDiffer(UpTo(shares, winner))
  {
    if shares != [] {
      var n := |shares| - 1;
      UpToMembers(shares[..n], winner);
      assert shares == shares[..n] + [shares[n]];
      forall e | e in UpTo(shares[..n], winner) ensures e.key != shares[n].key {
        assert e in shares[..n];
      }
    }
  }

  /** The last share of the history read for a block is its winning share exactly when no share accepted at the same moment sorts after it. */
  lemma LastIsWinnerIff(shares: seq<Event>, winner: Event)
    requires KeysDiffer(shares) && winner in shares
    ensures var read := History(UpTo(shares, winner));
      read != [] && (read[|read| - 1] == winner <==>
        !exists e | e in shares :: e.acceptedAt == winner.acceptedAt && KeyBefore(winner.key, e.key))
  {
    hide *;
    ReadsUpTo(shares, winner);
    LastDecides(History(UpTo(shares, winner)), shares, winner);
  }

  ghost predicate Reads(read: seq<Event>, shares: seq<Event>, winner: Event) {
    Ordered(read, Before()) && forall e :: e in read <==> e in shares && e.acceptedAt <= winner.acceptedAt
  }

  lemma ReadsUpTo(shares: seq<Event>, winner: Event)
    requires KeysDiffer(shares)
    ensures Reads(History(UpTo(shares, winner)), shares, winner)
  {
    UpToMembers(shares, winner);
    hide UpTo, History, KeysDiffer, Ordered, Before;
    HistoryIsSorted(UpTo(shares, winner));
  }

  lemma LastDecides(read: seq<Event>, shares: seq<Event>, winner: Event)
    requires Reads(read, shares, winner) && winner in shares
    ensures read != [] && (read[|read| - 1] == winner <==>
      !exists e | e in shares :: e.acceptedAt == winner.acceptedAt && KeyBefore(winner.key, e.key))
  {
    hide KeyBefore;
    LastIsLatest(read, winner);
    var last := read[|read| - 1];
    assert last in read;
    if e: Event :| e in shares && e.acceptedAt == winner.acceptedAt && KeyBefore(winner.key, e.key) {
      assert e in read && Before()(winner, e);
      hide Ordered;
      LastStands(read, e);
    } else if last != winner {
      assert Before()(winner, last);
    }
  }

  lemma LastStands(read: seq<Event>, e: Event)
    requires Ordered(read, Before()) && e in read
    ensures !Before()(read[|read| - 1], e)
  {
    KeyOrder();
    hide *;
    NothingAfterLast(read, e);
  }

  lemma HistoryIsSorted(rows: seq<Event>)
    requires KeysDiffer(rows)
    ensures Ordered(History(rows), Before())
    ensures forall e :: e in History(rows) <==> e in rows
  {
    HistoryOrder(rows);
    hide KeysDiffer, KeyBefore;
    SortOrdered(rows, Before());
    SortMembers(rows, Before());
  }

  lemma LastIsLatest(read: seq<Event>, winner: Event)
    requires Ordered(read, Before()) && winner in read
    ensures read != [] && (read[|read| - 1] == winner || Before()(winner, read[|read| - 1]))
  {
  }

  lemma NothingAfterLast(read: seq<Event>, e: Event)
    requires Ordered(read, Before()) && e in read && forall a: Event :: !KeyBefore(a.key, a.key)
    requires forall a: Key, b: Key, c: Key :: KeyBefore(a, b) && KeyBefore(b, c) ==> KeyBefore(a, c)
    ensures !Before()(read[|read| - 1], e)
  {
    hide KeyBefore;
    var i :| 0 <= i < |read| && read[i] == e;
    if i < |read| - 1 {
      assert Before()(e, read[|read| - 1]);
    }
  }

  // ---------- the order of the share history, column by column ----------

  /** By time, then edge, then boot, then sequence number; the texts by code units. */
  ghost predicate FiledBefore(a: Event, b: Event) {
    a.acceptedAt < b.acceptedAt || (a.acceptedAt == b.acceptedAt &&
      (TextBefore(a.key.edge, b.key.edge) || (a.key.edge == b.key.edge &&
        (TextBefore(a.key.boot, b.key.boot) || (a.key.boot == b.key.boot && a.key.seqNo < b.key.seqNo)))))
  }

  lemma FiledIff(a: Event, b: Event)
    ensures Before()(a, b) <==> FiledBefore(a, b)
  {
    LessIff(a.key.edge, b.key.edge);
    LessIff(a.key.boot, b.key.boot);
    hide Less, TextBefore;
  }

  /** The history lists every row once, in the order of the four columns. */
  lemma HistoryMeans(rows: seq<Event>)
    requires KeysDiffer(rows)
    ensures |History(rows)| == |rows| && forall e :: e in History(rows) <==> e in rows
    ensures forall i, j | 0 <= i < j < |History(rows)| :: FiledBefore(History(rows)[i], History(rows)[j])
  {
    HistoryIsSorted(rows);
    SortSum(rows, Before(), e => 0);
    var h := History(rows);
    assert |h| == |rows|;
    hide History, KeysDiffer, FiledBefore, Before;
    forall i, j | 0 <= i < j < |h| ensures FiledBefore(h[i], h[j]) {
      FiledIff(h[i], h[j]);
    }
  }

  // ---------- the uninterrupted call ----------

  /** No row has the event's sequence key or id. */
  ghost predicate Unknown(rows: seq<Event>, e: Event) {
    forall r | r in rows :: r.key != e.key && r.id != e.id
  }

  /**
   processEvent registers a valid event exactly when its key and id are both unknown, and then adds its row exactly
   when no share has its key, id or submission; anything else it leaves alone.
   */
  lemma ProcessMeans(s: State, e: Event)
    ensures Process(s, e).open == s.open
    ensures Process(s, e).registered == if e.valid && Unknown(s.registered, e) then s.registered + [e] else s.registered
    ensures Process(s, e).shares ==
      if e.valid && Unknown(s.registered, e) && Unknown(s.shares, e) && (forall r | r in s.shares :: r.submission != e.submission)
      then s.shares + [e] else s.shares
  {
  }

  /** It is a registration and, if that registered anything, a commit of its transaction. */
  lemma ProcessIsRun(s: State, e: Event)
    ensures var s' := Next(s, Receive(e));
      if s'.open == s.open then Process(s, e) == s' == s
      else |s'.open| == |s.open| + 1 && Process(s, e) == Next(s', Commit(|s.open|))
  {
    hide Insert;
    var s' := Next(s, Receive(e));
    assert s'.open != s.open ==> s'.open[..|s.open|] + s'.open[|s.open| + 1..] == s.open;
  }
}
