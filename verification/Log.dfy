/** The message history: entries in order of first logging, found by stamp,
    each counting who sent the message and how often. */
module Logs {
  import opened Bytes
  import opened Rings
  import opened Messages

  type Control = map<Id, nat>

  datatype LogEntry = LogEntry(message: Bytes, control: Control)

  /** One more copy from this peer; an absent counter starts at zero. */
  function Credit(c: Control, from: Id): (d: Control)
    ensures d.Keys == c.Keys + {from}
  {
    c[from := (if from in c then c[from] else 0) + 1]
  }

  function Zeros(ids: set<Id>): Control {
    map p | p in ids :: 0
  }

  /** The two views of the container: order of insertion, and by stamp. */
  datatype Log = Log(order: seq<Bytes>, entries: map<Bytes, LogEntry>)
  {
    predicate Logged(stamp: Bytes) { stamp in entries }

    function Insert(m: Msg, control: Control): Log {
      Log(order + [m.stamp], entries[m.stamp := LogEntry(Serialize(m), control)])
    }

    function Ack(stamp: Bytes, from: Id): Log
      requires Logged(stamp)
    {
      this.(entries := entries[stamp := entries[stamp].(control := Credit(entries[stamp].control, from))])
    }
  }

  const EMPTY_LOG := Log([], map[])

  /** Both views hold the same entries, once each. */
  ghost predicate Indexed(log: Log) {
    && (forall j, k | 0 <= j < k < |log.order| :: log.order[j] != log.order[k])
    && (forall s :: s in log.order <==> s in log.entries)
  }

  /** And every entry parses to a message that carries the stamp it is filed
      under. */
  ghost predicate Sound(log: Log) {
    Indexed(log) && forall s | s in log.entries :: EntrySound(log.entries[s], s)
  }

  ghost predicate EntrySound(e: LogEntry, stamp: Bytes) {
    e.message != [] && StampOf(e.message) == stamp && Rereads(e.message, stamp)
  }

  /** The text parses, whatever the reader's port variable held, to a message
      under this stamp that would be written the same again. */
  ghost predicate Rereads(text: Bytes, stamp: Bytes) {
    forall before: Port {:trigger Parse(text, before)} ::
      var p := Parse(text, before);
      p.Success? && p.message.stamp == stamp && Serialize(p.message) == text
  }

  lemma InsertKeepsSound(log: Log, m: Msg, control: Control)
    requires Sound(log) && Canonical(m) && !log.Logged(m.stamp)
    ensures Sound(log.Insert(m, control))
  {
    hide Serialize, Parse;
    forall before: Port
      ensures Parse(Serialize(m), before) == Success(m)
    {
      RoundTrip(m, before);
    }
    SerializedStamp(m);
  }

  lemma AckKeepsSound(log: Log, stamp: Bytes, from: Id)
    requires Sound(log) && log.Logged(stamp)
    ensures Sound(log.Ack(stamp, from))
  {
    hide Serialize, Parse, Rereads;
  }

  // ---------------------------------------------------- counting copies

  ghost function SumOver(c: Control, ids: set<Id>): nat
    requires ids <= c.Keys
  {
    if ids == {} then 0 else var p :| p in ids; c[p] + SumOver(c, ids - {p})
  }

  ghost function Sum(c: Control): nat {
    SumOver(c, c.Keys)
  }

  lemma {:induction false} SumPick(c: Control, ids: set<Id>, p: Id)
    requires p in ids && ids <= c.Keys
    ensures SumOver(c, ids) == c[p] + SumOver(c, ids - {p})
    decreases ids
  {
    var q :| q in ids && SumOver(c, ids) == c[q] + SumOver(c, ids - {q});
    if q != p {
      SumPick(c, ids - {q}, p);
      SumPick(c, ids - {p}, q);
      assert ids - {q} - {p} == ids - {p} - {q};
    }
  }

  lemma {:induction false} SumSame(c: Control, d: Control, ids: set<Id>)
    requires ids <= c.Keys && ids <= d.Keys && forall p | p in ids :: c[p] == d[p]
    ensures SumOver(c, ids) == SumOver(d, ids)
    decreases ids
  {
    if ids != {} {
      var p :| p in ids;
      SumPick(c, ids, p);
      SumPick(d, ids, p);
      SumSame(c, d, ids - {p});
    }
  }

  lemma CreditAddsOne(c: Control, from: Id)
    ensures Sum(Credit(c, from)) == Sum(c) + 1
  {
    var d := Credit(c, from);
    SumPick(d, d.Keys, from);
    SumSame(c, d, d.Keys - {from});
    if from in c {
      SumPick(c, c.Keys, from);
      assert d.Keys == c.Keys;
    } else {
      assert d.Keys - {from} == c.Keys;
    }
  }

  lemma {:induction false} ZerosSum(ids: set<Id>, some: set<Id>)
    requires some <= ids
    ensures SumOver(Zeros(ids), some) == 0
    decreases some
  {
    if some != {} {
      var p :| p in some;
      SumPick(Zeros(ids), some, p);
      ZerosSum(ids, some - {p});
    }
  }

  /** The sum of all counters of all entries, in log order. */
  ghost function Total(order: seq<Bytes>, entries: map<Bytes, LogEntry>): nat
    requires forall s | s in order :: s in entries
  {
    if order == [] then 0
    else
      var rest := order[..|order| - 1];
      assert forall s | s in rest :: s in order;
      Total(rest, entries) + Sum(entries[order[|order| - 1]].control)
  }

  ghost function Copies(log: Log): nat
    requires Indexed(log)
  {
    Total(log.order, log.entries)
  }

  lemma {:induction false} TotalSame(order: seq<Bytes>, a: map<Bytes, LogEntry>, b: map<Bytes, LogEntry>)
    requires forall s | s in order :: s in a && s in b && a[s] == b[s]
    ensures Total(order, a) == Total(order, b)
  {
    if order != [] {
      var rest := order[..|order| - 1];
      assert forall s | s in rest :: s in order;
      assert order[|order| - 1] in order;
      TotalSame(rest, a, b);
    }
  }

  lemma InsertIndexed(log: Log, m: Msg, control: Control)
    requires Indexed(log) && !log.Logged(m.stamp)
    ensures Indexed(log.Insert(m, control))
  {
    hide Serialize;
  }

  lemma InsertTotal(log: Log, m: Msg, control: Control)
    requires Indexed(log) && !log.Logged(m.stamp)
    ensures Indexed(log.Insert(m, control)) && Copies(log.Insert(m, control)) == Copies(log) + Sum(control)
  {
    hide Serialize, Sum;
    InsertIndexed(log, m, control);
    var l := log.Insert(m, control);
    assert l.order[..|l.order| - 1] == log.order && l.order[|l.order| - 1] == m.stamp;
    assert forall s | s in log.order :: s in l.entries && l.entries[s] == log.entries[s];
    TotalSame(log.order, log.entries, l.entries);
  }

  lemma {:induction false} TotalOneChanged(order: seq<Bytes>, a: map<Bytes, LogEntry>, b: map<Bytes, LogEntry>,
          stamp: Bytes)
    requires forall s | s in order :: s in a && s in b && (s != stamp ==> a[s] == b[s])
    requires forall j, k | 0 <= j < k < |order| :: order[j] != order[k]
    requires stamp in a && stamp in b && Sum(b[stamp].control) == Sum(a[stamp].control) + 1
    ensures Total(order, b) == Total(order, a) + if stamp in order then 1 else 0
  {
    if order != [] {
      var rest, last := order[..|order| - 1], order[|order| - 1];
      assert order == rest + [last];
      if last == stamp {
        TotalSame(rest, a, b);
      } else {
        TotalOneChanged(rest, a, b, stamp);
      }
    }
  }

  lemma AckTotal(log: Log, stamp: Bytes, from: Id)
    requires Indexed(log) && log.Logged(stamp)
    ensures Indexed(log.Ack(stamp, from)) && Copies(log.Ack(stamp, from)) == Copies(log) + 1
  {
    CreditAddsOne(log.entries[stamp].control, from);
    TotalOneChanged(log.order, log.entries, log.Ack(stamp, from).entries, stamp);
  }

  // ------------------------------------------------------- the container

  class History {
    var order: seq<Bytes>
    var entries: map<Bytes, LogEntry>

    ghost function Contents(): Log
      reads this
    {
      Log(order, entries)
    }

    constructor ()
      ensures Contents() == EMPTY_LOG
    {
      order, entries := [], map[];
    }

    /** find_log: the message is written out again and looked up by bytes 1-20. */
    method Find(m: Msg) returns (found: bool)
      requires Stamped(m)
      ensures found == Contents().Logged(m.stamp)
    {
      var text := SerializeMessage(m);
      SerializedStamp(m);
      found := StampOf(text) in entries;
    }

    method Insert(m: Msg, control: Control)
      requires Stamped(m) && !Contents().Logged(m.stamp)
      modifies this
      ensures Contents() == old(Contents()).Insert(m, control)
    {
      var text := SerializeMessage(m);
      SerializedStamp(m);
      order := order + [StampOf(text)];
      entries := entries[StampOf(text) := LogEntry(text, control)];
    }

    method Modify(stamp: Bytes, from: Id)
      requires Contents().Logged(stamp)
      modifies this
      ensures Contents() == old(Contents()).Ack(stamp, from)
    {
      var entry := entries[stamp];
      var control := entry.control;
      if from in control {
        control := control[from := control[from] + 1];
      } else {
        control := control[from := 1];
      }
      entries := entries[stamp := LogEntry(entry.message, control)];
    }
  }
}
